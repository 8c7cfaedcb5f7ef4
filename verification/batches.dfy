/** What a batch of kubelet calls does to the node, put together from what its claims do one by one. */
module Batches {
  import opened Types
  import opened Names
  import opened StateFile
  import opened Storage
  import opened Persistence
  import opened Dcgm
  import opened Marks
  import opened Cdi
  import opened Allocatable
  import opened Node
  import opened Claims

  /** The stores of the node, and how many calls have failed. */
  datatype View = View(
    prepared: Ledger, cdi: map<string, Entry>, cdiResidue: set<string>, marks: map<string, Entry>,
    vdevs: map<int, int>, leaked: set<int>, sizes: map<int, Size>, hostLapses: nat, failures: nat)

  /** The claims of a batch. */
  function Uids(claims: seq<ResourceClaim>): set<UID> { set c | c in claims :: c.uid }

  /** vHCUs have only come; each new one is recorded, unless a lapsed call has left it. */
  ghost predicate HostGrew(s: View, s': View) {
    && (forall i | i in s.vdevs :: i in s'.vdevs && s'.vdevs[i] == s.vdevs[i])
    && (forall i | i in s.leaked :: i in s'.leaked)
    && (forall i | i in s'.vdevs && i !in s.vdevs :: i in Tracked(s'.prepared) || i in s'.leaked)
    && s'.hostLapses >= s.hostLapses
    && (s'.hostLapses == s.hostLapses ==> forall i | i in s'.vdevs && i !in s.vdevs :: i in Tracked(s'.prepared))
  }

  lemma HostGrewMore(s0: View, s1: View, s2: View)
    requires HostGrew(s0, s1) && HostGrew(s1, s2) && Tracked(s1.prepared) <= Tracked(s2.prepared)
    ensures HostGrew(s0, s2)
  {
  }

  /** The claim has no allocation, or it is a new one with a result that names an unknown card or request. */
  ghost predicate Refusable(claim: ResourceClaim, prepared: Ledger, vendor: string,
                            allocatable: map<string, AllocatableDevice>) {
    claim.allocation.None? ||
      (!Known(prepared, claim.uid) && !AllPreparable(claim, claim.allocation.value, vendor, allocatable))
  }

  /** The batch has a claim of that UID that may be refused. */
  ghost predicate RefusedIn(claims: seq<ResourceClaim>, uid: UID, prepared: Ledger, vendor: string,
                            allocatable: map<string, AllocatableDevice>) {
    exists k :: 0 <= k < |claims| && claims[k].uid == uid && Refusable(claims[k], prepared, vendor, allocatable)
  }

  /** Without failed calls only such claims are refused. */
  ghost predicate RefusesOnly(s: View, s': View, claims: seq<ResourceClaim>, results: map<UID, PrepareResult>,
                              vendor: string, allocatable: map<string, AllocatableDevice>) {
    && s'.failures >= s.failures
    && (s'.failures == s.failures ==> forall u | u in results && results[u].Failure? ::
      RefusedIn(claims, u, s.prepared, vendor, allocatable))
  }

  /** The records are what the claim's results ask for, and their vHCUs exist. */
  ghost predicate RecordedFor(list: seq<PreparedDevice>, claim: ResourceClaim, s: View,
                              allocatable: map<string, AllocatableDevice>, layout: Layout) {
    && claim.allocation.Some? && Indices(list) <= s.vdevs.Keys
    && Matches(list, claim, Own(claim.allocation.value, layout.vendor), allocatable, layout, s.sizes)
  }

  ghost predicate RecordedIn(list: seq<PreparedDevice>, claims: seq<ResourceClaim>, uid: UID, s: View,
                             allocatable: map<string, AllocatableDevice>, layout: Layout) {
    exists k :: 0 <= k < |claims| && claims[k].uid == uid && RecordedFor(list, claims[k], s, allocatable, layout)
  }

  /** Every entry that is new is what the results of a claim of the batch ask for. */
  ghost predicate RecordsAll(s: View, s': View, claims: seq<ResourceClaim>,
                             allocatable: map<string, AllocatableDevice>, layout: Layout) {
    forall u | u in s'.prepared && (u in s.prepared ==> s'.prepared[u] != s.prepared[u]) ::
      RecordedIn(s'.prepared[u], claims, u, s', allocatable, layout)
  }

  /** A name that some claim of the batch may give a mark. */
  ghost predicate OursIn(n: string, claims: seq<ResourceClaim>, allocatable: map<string, AllocatableDevice>,
                         layout: Layout, v: map<int, int>) {
    exists k :: 0 <= k < |claims| && claims[k].allocation.Some? &&
      Ours(n, claims[k], Own(claims[k].allocation.value, layout.vendor), allocatable, layout, v)
  }

  /** Recorded marks stay, untouched unless contested, but for names that are the batch's to give. */
  ghost predicate MarksStay(s: View, s': View, claims: seq<ResourceClaim>, allocatable: map<string, AllocatableDevice>,
                            layout: Layout) {
    forall n | n in ActiveMarks(s.prepared) && n in s.marks && !OursIn(n, claims, allocatable, layout, s.vdevs) ::
      n in s'.marks && (s'.marks[n] == s.marks[n] || Contested(s.prepared, n))
  }

  /** No more marks are contested than before. */
  ghost predicate NoneContested(before: Ledger, after: Ledger) {
    forall n | Contested(after, n) :: Contested(before, n)
  }

  /** The state file is as it was, or holds a ledger that only differs in entries of those claims. */
  ghost predicate SavedWithin(layout: Layout, s: View, s': View, uids: set<UID>) {
    var file := FileAt(s'.cdi, layout.state);
    || file == FileAt(s.cdi, layout.state)
    || (file.Some? && file.value.PreparedJson? && file.value.prepared.Some? &&
        Extends(s.prepared, file.value.prepared.value, uids))
  }

  /** What a batch of Prepares may do to ledger and host. */
  ghost predicate Advanced(s: View, s': View, claims: seq<ResourceClaim>, results: map<UID, PrepareResult>,
                           allocatable: map<string, AllocatableDevice>, layout: Layout) {
    && Reports(s.prepared, s'.prepared, results)
    && HostGrew(s, s') && SizesStay(s.vdevs, s.sizes, s'.sizes)
    && RefusesOnly(s, s', claims, results, layout.vendor, allocatable)
    && RecordsAll(s, s', claims, allocatable, layout)
  }

  /** What it may do to the files. */
  ghost predicate FilesStay(s: View, s': View, claims: seq<ResourceClaim>, uids: set<UID>,
                            allocatable: map<string, AllocatableDevice>, layout: Layout) {
    && MarksStay(s, s', claims, allocatable, layout) && NoneContested(s.prepared, s'.prepared)
    && CdiFrame(layout, ActiveNames(s.prepared), s.cdi, s.cdiResidue, s'.cdi, s'.cdiResidue)
    && SavedWithin(layout, s, s', uids)
  }

  /** What a batch of Prepares may do to the node. */
  ghost predicate Batched(s: View, s': View, claims: seq<ResourceClaim>, results: map<UID, PrepareResult>,
                          allocatable: map<string, AllocatableDevice>, layout: Layout) {
    && Advanced(s, s', claims, results, allocatable, layout)
    && FilesStay(s, s', claims, results.Keys, allocatable, layout)
  }

  lemma NothingBatched(s: View, allocatable: map<string, AllocatableDevice>, layout: Layout)
    ensures Batched(s, s, [], map[], allocatable, layout)
  {
  }

  /** One claim after others. */
  lemma BatchedSnoc(s0: View, s1: View, s2: View, claims: seq<ResourceClaim>, results: map<UID, PrepareResult>,
                    claim: ResourceClaim, r: PrepareResult, allocatable: map<string, AllocatableDevice>,
                    layout: Layout)
    requires Batched(s0, s1, claims, results, allocatable, layout)
    requires Batched(s1, s2, [claim], map[claim.uid := r], allocatable, layout)
    ensures Batched(s0, s2, claims + [claim], results[claim.uid := r], allocatable, layout)
  {
    assert map[claim.uid := r].Keys == {claim.uid} && results[claim.uid := r].Keys == results.Keys + {claim.uid};
    assert Advanced(s0, s2, claims + [claim], results[claim.uid := r], allocatable, layout) by {
      AdvancedMore(s0, s1, s2, claims, results, claim, r, allocatable, layout);
    }
    assert FilesStay(s0, s2, claims + [claim], results.Keys + {claim.uid}, allocatable, layout) by {
      FilesStayMore(s0, s1, s2, claims, results.Keys, claim, allocatable, layout);
    }
  }

  /** The answers by claim; a claim that comes again is answered again. */
  function Collected(claims: seq<ResourceClaim>, answers: seq<PrepareResult>): map<UID, PrepareResult>
    requires |claims| == |answers|
  {
    if claims == [] then map[]
    else
      var n := |claims| - 1;
      Collected(claims[..n], answers[..n])[claims[n].uid := answers[n]]
  }

  /** Claim k has been prepared on its own, from where the claims before it had led. */
  ghost predicate Round(trail: seq<View>, claims: seq<ResourceClaim>, answers: seq<PrepareResult>, k: int,
                        allocatable: map<string, AllocatableDevice>, layout: Layout) {
    && 0 <= k < |claims| && |answers| >= |claims| && |trail| > |claims|
    && Batched(trail[k], trail[k + 1], [claims[k]], map[claims[k].uid := answers[k]], allocatable, layout)
  }

  /** Each claim of the batch has been prepared on its own, whatever has become of those before it. */
  ghost predicate Rounds(trail: seq<View>, claims: seq<ResourceClaim>, answers: seq<PrepareResult>,
                         allocatable: map<string, AllocatableDevice>, layout: Layout) {
    && |trail| == |claims| + 1 && |answers| == |claims|
    && forall k | 0 <= k < |claims| :: Round(trail, claims, answers, k, allocatable, layout)
  }

  lemma RoundsSnoc(trail: seq<View>, claims: seq<ResourceClaim>, answers: seq<PrepareResult>, n: nat, s: View,
                   r: PrepareResult, allocatable: map<string, AllocatableDevice>, layout: Layout)
    requires n < |claims| && Rounds(trail, claims[..n], answers, allocatable, layout)
    requires Batched(trail[n], s, [claims[n]], map[claims[n].uid := r], allocatable, layout)
    ensures Rounds(trail + [s], claims[..n + 1], answers + [r], allocatable, layout)
    ensures Collected(claims[..n + 1], answers + [r]) == Collected(claims[..n], answers)[claims[n].uid := r]
  {
    var trail', init, more, answers' := trail + [s], claims[..n], claims[..n + 1], answers + [r];
    assert more[..n] == init && answers'[..n] == answers;
    forall k | 0 <= k < n + 1 ensures Round(trail', more, answers', k, allocatable, layout) {
      if k < n {
        assert Round(trail, init, answers, k, allocatable, layout);
        assert trail'[k] == trail[k] && trail'[k + 1] == trail[k + 1];
      }
    }
  }

  /** How many claims were refused although they could have been prepared. */
  ghost function Refusals(trail: seq<View>, claims: seq<ResourceClaim>, answers: seq<PrepareResult>, n: nat,
                          vendor: string, allocatable: map<string, AllocatableDevice>): nat
    requires n <= |claims| == |answers| && |trail| == |claims| + 1
  {
    if n == 0 then 0
    else
      Refusals(trail, claims, answers, n - 1, vendor, allocatable) +
      if answers[n - 1].Failure? && !Refusable(claims[n - 1], trail[n - 1].prepared, vendor, allocatable) then 1 else 0
  }

  /** A failed call costs at most one claim of the batch its devices. */
  lemma {:induction false} RefusalsCost(trail: seq<View>, claims: seq<ResourceClaim>, answers: seq<PrepareResult>,
                                n: nat, allocatable: map<string, AllocatableDevice>, layout: Layout)
    requires Rounds(trail, claims, answers, allocatable, layout) && n <= |claims|
    ensures trail[0].failures + Refusals(trail, claims, answers, n, layout.vendor, allocatable) <= trail[n].failures
  {
    if n > 0 {
      RefusalsCost(trail, claims, answers, n - 1, allocatable, layout);
      assert Round(trail, claims, answers, n - 1, allocatable, layout);
      OneRefusal(trail[n - 1], trail[n], claims[n - 1], answers[n - 1], allocatable, layout);
    }
  }

  lemma OneRefusal(s: View, s': View, claim: ResourceClaim, r: PrepareResult,
                   allocatable: map<string, AllocatableDevice>, layout: Layout)
    requires Batched(s, s', [claim], map[claim.uid := r], allocatable, layout)
    ensures s'.failures >= s.failures
    ensures r.Failure? && !Refusable(claim, s.prepared, layout.vendor, allocatable) ==> s'.failures > s.failures
  {
    var results := map[claim.uid := r];
    assert claim.uid in results && results[claim.uid] == r;
  }

  /** Rounds add up to what the batch may do. */
  lemma {:induction false} RoundsAreBatched(trail: seq<View>, claims: seq<ResourceClaim>, answers: seq<PrepareResult>,
                                    n: nat, allocatable: map<string, AllocatableDevice>, layout: Layout)
    requires Rounds(trail, claims, answers, allocatable, layout) && n <= |claims|
    ensures Batched(trail[0], trail[n], claims[..n], Collected(claims[..n], answers[..n]), allocatable, layout)
    ensures Collected(claims[..n], answers[..n]).Keys == Uids(claims[..n])
  {
    if n == 0 {
      NothingBatched(trail[0], allocatable, layout);
    } else {
      var m := n - 1;
      RoundsAreBatched(trail, claims, answers, m, allocatable, layout);
      assert Round(trail, claims, answers, m, allocatable, layout);
      assert claims[..n] == claims[..m] + [claims[m]] && claims[..n][..m] == claims[..m];
      assert answers[..n][..m] == answers[..m];
      BatchedSnoc(trail[0], trail[m], trail[n], claims[..m], Collected(claims[..m], answers[..m]), claims[m],
        answers[m], allocatable, layout);
    }
  }

  lemma ReportsMore(l: Ledger, before: Ledger, after: Ledger, results: map<UID, PrepareResult>, uid: UID,
                    r: PrepareResult)
    requires Reports(l, before, results) && Reports(before, after, map[uid := r])
    ensures Reports(l, after, results[uid := r])
  {
    var one := map[uid := r];
    assert one.Keys == {uid} && one[uid] == r;
  }

  lemma OursBefore(n: string, claim: ResourceClaim, own: seq<AllocationResult>,
                   allocatable: map<string, AllocatableDevice>, layout: Layout, v: map<int, int>, v1: map<int, int>)
    requires Ours(n, claim, own, allocatable, layout, v1) && forall i | i in v :: i in v1
    ensures Ours(n, claim, own, allocatable, layout, v)
  {
    var k :| 0 <= k < |own| && OursFor(n, claim, own[k], allocatable, layout, v1);
    var p :| WouldMark(p, n, claim, own[k], allocatable[own[k].device], layout, v1);
    assert WouldMark(p, n, claim, own[k], allocatable[own[k].device], layout, v);
    assert OursFor(n, claim, own[k], allocatable, layout, v);
  }

  lemma RefusesMore(s0: View, s1: View, s2: View, claims: seq<ResourceClaim>, results: map<UID, PrepareResult>,
                    claim: ResourceClaim, r: PrepareResult, vendor: string, allocatable: map<string, AllocatableDevice>)
    requires RefusesOnly(s0, s1, claims, results, vendor, allocatable)
    requires RefusesOnly(s1, s2, [claim], map[claim.uid := r], vendor, allocatable)
    requires forall u | Known(s0.prepared, u) :: Known(s1.prepared, u)
    ensures RefusesOnly(s0, s2, claims + [claim], results[claim.uid := r], vendor, allocatable)
  {
    var all, both := claims + [claim], results[claim.uid := r];
    if s2.failures == s0.failures {
      forall u | u in both && both[u].Failure? ensures RefusedIn(all, u, s0.prepared, vendor, allocatable) {
        if u == claim.uid {
          assert map[claim.uid := r][u].Failure? && RefusedIn([claim], u, s1.prepared, vendor, allocatable);
          assert all[|claims|] == claim;
        } else {
          var k :| 0 <= k < |claims| && claims[k].uid == u && Refusable(claims[k], s0.prepared, vendor, allocatable);
          assert all[k] == claims[k];
        }
      }
    }
  }

  lemma RecordedLater(list: seq<PreparedDevice>, claim: ResourceClaim, s: View, s': View,
                      allocatable: map<string, AllocatableDevice>, layout: Layout)
    requires RecordedFor(list, claim, s, allocatable, layout)
    requires SizesStay(s.vdevs, s.sizes, s'.sizes) && forall i | i in s.vdevs :: i in s'.vdevs
    ensures RecordedFor(list, claim, s', allocatable, layout)
  {
    var own := Own(claim.allocation.value, layout.vendor);
    forall k | 0 <= k < |own| ensures MadeFor(list[k], claim, own[k], allocatable, layout, s'.sizes) {
      assert MadeFor(list[k], claim, own[k], allocatable, layout, s.sizes);
      assert list[k].wholeCard || list[k].vdvInd in Indices(list);
    }
  }

  lemma RecordsMore(s0: View, s1: View, s2: View, claims: seq<ResourceClaim>, claim: ResourceClaim,
                    allocatable: map<string, AllocatableDevice>, layout: Layout)
    requires RecordsAll(s0, s1, claims, allocatable, layout) && RecordsAll(s1, s2, [claim], allocatable, layout)
    requires SizesStay(s1.vdevs, s1.sizes, s2.sizes) && forall i | i in s1.vdevs :: i in s2.vdevs
    ensures RecordsAll(s0, s2, claims + [claim], allocatable, layout)
  {
    var all := claims + [claim];
    forall u | u in s2.prepared && (u in s0.prepared ==> s2.prepared[u] != s0.prepared[u])
      ensures RecordedIn(s2.prepared[u], all, u, s2, allocatable, layout)
    {
      var list := s2.prepared[u];
      if u in s1.prepared && s1.prepared[u] == list {
        var k :| 0 <= k < |claims| && claims[k].uid == u && RecordedFor(list, claims[k], s1, allocatable, layout);
        RecordedLater(list, claims[k], s1, s2, allocatable, layout);
        assert all[k] == claims[k];
      } else {
        assert RecordedIn(list, [claim], u, s2, allocatable, layout);
        assert all[|claims|] == claim;
      }
    }
  }

  lemma MarksStayMore(s0: View, s1: View, s2: View, claims: seq<ResourceClaim>, claim: ResourceClaim,
                      allocatable: map<string, AllocatableDevice>, layout: Layout)
    requires MarksStay(s0, s1, claims, allocatable, layout) && MarksStay(s1, s2, [claim], allocatable, layout)
    requires NoneContested(s0.prepared, s1.prepared) && ActiveMarks(s0.prepared) <= ActiveMarks(s1.prepared)
    requires forall i | i in s0.vdevs :: i in s1.vdevs
    ensures MarksStay(s0, s2, claims + [claim], allocatable, layout)
  {
    var all, v := claims + [claim], s0.vdevs;
    forall n | n in ActiveMarks(s0.prepared) && n in s0.marks && !OursIn(n, all, allocatable, layout, v)
      ensures n in s2.marks && (s2.marks[n] == s0.marks[n] || Contested(s0.prepared, n))
    {
      OursInMore(n, claims, claim, allocatable, layout, v, s1.vdevs);
    }
  }

  lemma OursInMore(n: string, claims: seq<ResourceClaim>, claim: ResourceClaim,
                   allocatable: map<string, AllocatableDevice>, layout: Layout, v: map<int, int>, v1: map<int, int>)
    requires forall i | i in v :: i in v1
    ensures OursIn(n, claims, allocatable, layout, v) || OursIn(n, [claim], allocatable, layout, v1) ==>
      OursIn(n, claims + [claim], allocatable, layout, v)
  {
    var all := claims + [claim];
    if OursIn(n, claims, allocatable, layout, v) {
      var k :| 0 <= k < |claims| && claims[k].allocation.Some? &&
        Ours(n, claims[k], Own(claims[k].allocation.value, layout.vendor), allocatable, layout, v);
      assert all[k] == claims[k];
    } else if OursIn(n, [claim], allocatable, layout, v1) {
      OursBefore(n, claim, Own(claim.allocation.value, layout.vendor), allocatable, layout, v, v1);
      assert all[|claims|] == claim;
    }
  }

  lemma SavedMore(layout: Layout, s0: View, s1: View, s2: View, uids: set<UID>, uid: UID)
    requires SavedWithin(layout, s0, s1, uids) && SavedWithin(layout, s1, s2, {uid})
    requires Extends(s0.prepared, s1.prepared, uids)
    ensures SavedWithin(layout, s0, s2, uids + {uid})
  {
  }

  /** One more claim of the batch. */
  lemma AdvancedMore(s0: View, s1: View, s2: View, claims: seq<ResourceClaim>, results: map<UID, PrepareResult>,
                     claim: ResourceClaim, r: PrepareResult, allocatable: map<string, AllocatableDevice>,
                     layout: Layout)
    requires Advanced(s0, s1, claims, results, allocatable, layout)
    requires Advanced(s1, s2, [claim], map[claim.uid := r], allocatable, layout)
    ensures Advanced(s0, s2, claims + [claim], results[claim.uid := r], allocatable, layout)
  {
    StillRecorded(s1.prepared, s2.prepared);
    ReportsMore(s0.prepared, s1.prepared, s2.prepared, results, claim.uid, r);
    HostGrewMore(s0, s1, s2);
    RefusesMore(s0, s1, s2, claims, results, claim, r, layout.vendor, allocatable);
    RecordsMore(s0, s1, s2, claims, claim, allocatable, layout);
  }

  lemma FilesStayMore(s0: View, s1: View, s2: View, claims: seq<ResourceClaim>, uids: set<UID>, claim: ResourceClaim,
                      allocatable: map<string, AllocatableDevice>, layout: Layout)
    requires FilesStay(s0, s1, claims, uids, allocatable, layout)
    requires FilesStay(s1, s2, [claim], {claim.uid}, allocatable, layout)
    requires Extends(s0.prepared, s1.prepared, uids) && forall i | i in s0.vdevs :: i in s1.vdevs
    ensures FilesStay(s0, s2, claims + [claim], uids + {claim.uid}, allocatable, layout)
  {
    StillRecorded(s0.prepared, s1.prepared);
    MarksStayMore(s0, s1, s2, claims, claim, allocatable, layout);
    FrameLess(layout, ActiveNames(s1.prepared), ActiveNames(s0.prepared), s1.cdi, s1.cdiResidue, s2.cdi, s2.cdiResidue);
    FrameMore(layout, ActiveNames(s0.prepared), s0.cdi, s0.cdiResidue, s1.cdi, s1.cdiResidue, s2.cdi, s2.cdiResidue);
    SavedMore(layout, s0, s1, s2, uids, claim.uid);
  }

  /** The part of a view that a Prepare touches before it records anything. */
  ghost predicate Shot(s: View, snap: Snapshot) {
    snap.entries == s.marks && snap.vdevs == s.vdevs && snap.leaked == s.leaked && snap.hostLapses == s.hostLapses
  }

  /** What one Prepare does to ledger and host, as nodePrepareResource promises it. */
  ghost predicate PreparedOne(s: View, snap: Snapshot, s': View, snap': Snapshot, claim: ResourceClaim,
                              r: PrepareResult, touched: set<string>, outcome: Outcome,
                              allocatable: map<string, AllocatableDevice>, layout: Layout) {
    && Shot(s, snap) && Shot(s', snap') && s'.hostLapses >= s.hostLapses
    && (Known(s.prepared, claim.uid) ==>
        s'.prepared == s.prepared && s'.vdevs == s.vdevs && s'.leaked == s.leaked)
    && (r.Devices? ==>
        && claim.allocation.Some? && claim.uid in s'.prepared && Tells(r.devices, s'.prepared[claim.uid])
        && (!Known(s.prepared, claim.uid) ==>
            Made(s.prepared, snap, s'.prepared, snap', claim, Own(claim.allocation.value, layout.vendor), allocatable,
              layout, s'.sizes, r.devices)))
    && (r.Failure? ==>
        Known(s.prepared, claim.uid) || GaveUp(s.prepared, snap, s'.prepared, snap', claim.uid, touched, outcome))
  }

  lemma OneReports(s: View, snap: Snapshot, s': View, snap': Snapshot, claim: ResourceClaim, r: PrepareResult,
                   touched: set<string>, outcome: Outcome, allocatable: map<string, AllocatableDevice>, layout: Layout)
    requires PreparedOne(s, snap, s', snap', claim, r, touched, outcome, allocatable, layout)
    ensures Reports(s.prepared, s'.prepared, map[claim.uid := r])
  {
  }

  lemma OneGrows(s: View, snap: Snapshot, s': View, snap': Snapshot, claim: ResourceClaim, r: PrepareResult,
                 touched: set<string>, outcome: Outcome, allocatable: map<string, AllocatableDevice>, layout: Layout)
    requires PreparedOne(s, snap, s', snap', claim, r, touched, outcome, allocatable, layout)
    ensures HostGrew(s, s')
  {
    if r.Devices? && !Known(s.prepared, claim.uid) {
      TrackedContains(s'.prepared, claim.uid);
    }
  }

  lemma OneRecords(s: View, snap: Snapshot, s': View, snap': Snapshot, claim: ResourceClaim, r: PrepareResult,
                   touched: set<string>, outcome: Outcome, allocatable: map<string, AllocatableDevice>, layout: Layout)
    requires PreparedOne(s, snap, s', snap', claim, r, touched, outcome, allocatable, layout)
    ensures RecordsAll(s, s', [claim], allocatable, layout) && NoneContested(s.prepared, s'.prepared)
  {
    if r.Devices? && !Known(s.prepared, claim.uid) {
      var list, own := s'.prepared[claim.uid], Own(claim.allocation.value, layout.vendor);
      assert [claim][0] == claim && RecordedFor(list, claim, s', allocatable, layout);
      forall n | Contested(s'.prepared, n) ensures Contested(s.prepared, n) {
        assert forall k | 0 <= k < |own| :: MadeFor(list[k], claim, own[k], allocatable, layout, s'.sizes);
        ContestedBefore(s.prepared, claim.uid, list, n);
      }
    } else if r.Failure? && !Known(s.prepared, claim.uid) && outcome.TakenBack? {
      forall n | Contested(s'.prepared, n) ensures Contested(s.prepared, n) {
        ContestedBefore(s.prepared, claim.uid, [], n);
      }
    }
  }

  /** How it may fail, and what it does to the files, as nodePrepareResource promises it. */
  ghost predicate KeptOne(s: View, s': View, claim: ResourceClaim, r: PrepareResult, touched: set<string>,
                          allocatable: map<string, AllocatableDevice>, layout: Layout) {
    && SizesStay(s.vdevs, s.sizes, s'.sizes) && s'.failures >= s.failures
    && (r.Failure? && s'.failures == s.failures ==> Refusable(claim, s.prepared, layout.vendor, allocatable))
    && KeepsMarks(s.prepared, touched, s.marks, s'.marks)
    && (if claim.allocation.None? then touched == {}
        else AllOurs(touched, claim, Own(claim.allocation.value, layout.vendor), allocatable, layout, s.vdevs))
    && CdiFrame(layout, ActiveNames(s.prepared), s.cdi, s.cdiResidue, s'.cdi, s'.cdiResidue)
    && FileAt(s'.cdi, layout.state) in {FileAt(s.cdi, layout.state), Some(PreparedJson(Some(s'.prepared)))}
  }

  /** One claim is a batch. */
  lemma OneIsBatched(s: View, snap: Snapshot, s': View, snap': Snapshot, claim: ResourceClaim, r: PrepareResult,
                     touched: set<string>, outcome: Outcome, allocatable: map<string, AllocatableDevice>,
                     layout: Layout)
    requires PreparedOne(s, snap, s', snap', claim, r, touched, outcome, allocatable, layout)
    requires KeptOne(s, s', claim, r, touched, allocatable, layout)
    ensures Batched(s, s', [claim], map[claim.uid := r], allocatable, layout)
  {
    OneReports(s, snap, s', snap', claim, r, touched, outcome, allocatable, layout);
    OneGrows(s, snap, s', snap', claim, r, touched, outcome, allocatable, layout);
    OneRecords(s, snap, s', snap', claim, r, touched, outcome, allocatable, layout);
    OneKeepsFiles(s, s', claim, r, touched, allocatable, layout);
    assert [claim][0] == claim;
  }

  lemma OneKeepsFiles(s: View, s': View, claim: ResourceClaim, r: PrepareResult, touched: set<string>,
                      allocatable: map<string, AllocatableDevice>, layout: Layout)
    requires KeptOne(s, s', claim, r, touched, allocatable, layout)
    requires Reports(s.prepared, s'.prepared, map[claim.uid := r]) && NoneContested(s.prepared, s'.prepared)
    ensures FilesStay(s, s', [claim], map[claim.uid := r].Keys, allocatable, layout)
  {
    forall n | n in touched ensures OursIn(n, [claim], allocatable, layout, s.vdevs) {
      assert [claim][0] == claim;
    }
  }

  /** The name leads with one of those claim UIDs. */
  ghost predicate LedByAny(n: string, uids: set<UID>) {
    exists u :: u in uids && LedBy(n, u)
  }

  /** Recorded marks of the claims that stay, if no claim of the batch leads them, stay untouched unless contested. */
  ghost predicate OthersMarksStay(s: View, s': View, uids: set<UID>) {
    forall n | n in ActiveMarks(s'.prepared) && n in s.marks && n !in MarksBy(s.prepared, uids) && !LedByAny(n, uids) ::
      n in s'.marks && (s'.marks[n] == s.marks[n] || Contested(s.prepared, n))
  }

  /** The state file is as it was, or holds a ledger that has lost entries of those claims only. */
  ghost predicate SavedWithout(layout: Layout, s: View, s': View, uids: set<UID>) {
    var file := FileAt(s'.cdi, layout.state);
    || file == FileAt(s.cdi, layout.state)
    || (file.Some? && file.value.PreparedJson? && file.value.prepared.Some? &&
        Loses(s.prepared, file.value.prepared.value, uids))
  }

  ghost predicate Loses(before: Ledger, after: Ledger, uids: set<UID>) {
    && (forall u | u in after :: u in before && after[u] == before[u])
    && (forall u | u in before && u !in uids :: u in after)
  }

  /** What a batch of Unprepares does to the node. */
  ghost predicate Withdrawn(s: View, s': View, uids: set<UID>, layout: Layout) {
    && Released(s.prepared, s.vdevs, s.leaked, s'.prepared, s'.vdevs, s'.leaked, uids)
    && s'.failures >= s.failures && s'.hostLapses >= s.hostLapses
    && (s'.hostLapses == s.hostLapses ==> TrackedBy(s.prepared, uids) !! s'.vdevs.Keys)
    && OthersMarksStay(s, s', uids)
    && CdiFrame(layout, ActiveNames(s'.prepared), s.cdi, s.cdiResidue, s'.cdi, s'.cdiResidue)
    && SavedWithout(layout, s, s', uids)
  }

  lemma NothingWithdrawn(s: View, layout: Layout)
    ensures Withdrawn(s, s, {}, layout)
  {
    NoneGone(s.prepared);
  }

  lemma ContestedLess(before: Ledger, uids: set<UID>, n: string)
    requires Contested(before - uids, n)
    ensures Contested(before, n)
  {
    var u, p :| u in before - uids && p in (before - uids)[u] && p.dynamicMarkFile !in {"", n} && RebuiltMark(p) == n;
    assert u in before && p in before[u];
  }

  lemma OthersMarksStayMore(s0: View, s1: View, s2: View, uids: set<UID>, uid: UID)
    requires OthersMarksStay(s0, s1, uids) && OthersMarksStay(s1, s2, {uid})
    requires s1.prepared == s0.prepared - uids && s2.prepared == s1.prepared - {uid}
    ensures OthersMarksStay(s0, s2, uids + {uid})
  {
    var all := uids + {uid};
    forall n | n in ActiveMarks(s2.prepared) && n in s0.marks && n !in MarksBy(s0.prepared, all) && !LedByAny(n, all)
      ensures n in s2.marks && (s2.marks[n] == s0.marks[n] || Contested(s0.prepared, n))
    {
      assert uid in all && !LedBy(n, uid);
      assert forall u | u in uids :: u in all && !LedBy(n, u);
      assert n in ActiveMarks(s1.prepared) && n !in MarksBy(s0.prepared, uids) && n !in MarksBy(s1.prepared, {uid});
      if Contested(s1.prepared, n) {
        ContestedLess(s0.prepared, uids, n);
      }
    }
  }

  lemma WithdrawnMore(s0: View, s1: View, s2: View, uids: set<UID>, uid: UID, layout: Layout)
    requires Withdrawn(s0, s1, uids, layout) && Withdrawn(s1, s2, {uid}, layout)
    ensures Withdrawn(s0, s2, uids + {uid}, layout) && s2.failures >= s1.failures >= s0.failures
  {
    ReleasedMore(s0.prepared, s0.vdevs, s0.leaked, s1.prepared, s1.vdevs, s1.leaked, s2.prepared, s2.vdevs, s2.leaked,
      uids, uid);
    OthersMarksStayMore(s0, s1, s2, uids, uid);
    assert ActiveNames(s2.prepared) <= ActiveNames(s1.prepared);
    FrameLess(layout, ActiveNames(s1.prepared), ActiveNames(s2.prepared), s0.cdi, s0.cdiResidue, s1.cdi, s1.cdiResidue);
    FrameMore(layout, ActiveNames(s2.prepared), s0.cdi, s0.cdiResidue, s1.cdi, s1.cdiResidue, s2.cdi, s2.cdiResidue);
    TrackedByMore(s0.prepared, uids, uid);
  }

  /** The claims that a batch of Unprepares names. */
  function Named(uids: seq<UID>): set<UID> { set u | u in uids }

  /** Unprepare k after the ones before it. */
  lemma WithdrawnNext(s0: View, s1: View, s2: View, uids: seq<UID>, k: nat, layout: Layout)
    requires k < |uids| && Withdrawn(s0, s1, Named(uids[..k]), layout) && Withdrawn(s1, s2, {uids[k]}, layout)
    ensures Withdrawn(s0, s2, Named(uids[..k + 1]), layout) && s2.failures >= s1.failures >= s0.failures
    ensures Named(uids[..k + 1]) == Named(uids[..k]) + {uids[k]}
  {
    assert uids[..k + 1] == uids[..k] + [uids[k]];
    assert Named(uids[..k + 1]) == Named(uids[..k]) + {uids[k]};
    WithdrawnMore(s0, s1, s2, Named(uids[..k]), uids[k], layout);
  }

  lemma TrackedByMore(ledger: Ledger, uids: set<UID>, uid: UID)
    ensures TrackedBy(ledger, uids + {uid}) == TrackedBy(ledger, uids) + TrackedBy(ledger - uids, {uid})
  {
  }

  /** One Unprepare, as nodeUnprepareResource promises it. */
  lemma OneWithdraws(s: View, s': View, uid: UID, layout: Layout)
    requires s'.prepared == s.prepared - {uid} && s'.failures >= s.failures && s'.hostLapses >= s.hostLapses
    requires Destroyed(s.vdevs, s.leaked, s'.vdevs, s'.leaked,
               if uid in s.prepared then Indices(s.prepared[uid]) else {})
    requires uid in s.prepared && s'.hostLapses == s.hostLapses ==>
      forall i | i in Indices(s.prepared[uid]) :: i !in s'.vdevs
    requires SparesMarks(s'.prepared, if uid in s.prepared then MarksOf(s.prepared[uid]) else {}, uid, s.marks,
      s'.marks)
    requires CdiFrame(layout, ActiveNames(s'.prepared), s.cdi, s.cdiResidue, s'.cdi, s'.cdiResidue)
    requires FileAt(s'.cdi, layout.state) in {FileAt(s.cdi, layout.state), Some(PreparedJson(Some(s'.prepared)))}
    ensures Withdrawn(s, s', {uid}, layout)
  {
    ReleasedOnce(s.prepared, uid);
    forall n | n in ActiveMarks(s'.prepared) && n in s.marks && n !in MarksBy(s.prepared, {uid}) &&
      !LedByAny(n, {uid})
      ensures n in s'.marks && (s'.marks[n] == s.marks[n] || Contested(s.prepared, n))
    {
      assert uid in {uid} && !LedBy(n, uid);
      assert uid in s.prepared ==> n !in MarksOf(s.prepared[uid]);
      if Contested(s'.prepared, n) {
        ContestedLess(s.prepared, {uid}, n);
      }
    }
  }
}
