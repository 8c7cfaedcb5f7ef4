/** What the records of the ledger owe to the scheduler: each stands for an admitted allocation of its own. */
module Admission {
  import opened Types
  import opened Names
  import opened StateFile
  import opened Storage
  import opened Dcgm
  import opened Marks
  import opened Allocatable
  import opened Claims
  import Capacity

  /** The k-th record of a claim. */
  type Slot = (UID, nat)

  predicate HasSlot(prepared: Ledger, slot: Slot) {
    slot.0 in prepared && slot.1 < |prepared[slot.0]|
  }

  function RecordAt(prepared: Ledger, slot: Slot): PreparedDevice
    requires HasSlot(prepared, slot)
  {
    prepared[slot.0][slot.1]
  }

  ghost predicate HeldBy(holders: seq<Option<Slot>>, slot: Slot) {
    exists j :: 0 <= j < |holders| && holders[j] == Some(slot)
  }

  /** Every record is held by one allocation, and every allocation holds at most one record. */
  ghost predicate Holds(prepared: Ledger, holders: seq<Option<Slot>>) {
    && (forall j | 0 <= j < |holders| && holders[j].Some? :: HasSlot(prepared, holders[j].value))
    && (forall i, j | 0 <= i < j < |holders| && holders[i].Some? && holders[j].Some? :: holders[i] != holders[j])
    && (forall slot | HasSlot(prepared, slot) :: HeldBy(holders, slot))
  }

  /** The record is what Prepare makes of that allocation. */
  ghost predicate StandsFor(p: PreparedDevice, a: Capacity.Allocation, cards: map<string, Capacity.Card>,
                            sizes: map<int, Size>) {
    && a.device == p.parentDevice && a.device in cards &&
      SizedFor(p, Capacity.CarvingOf(cards[a.device], a.request), sizes)
    && p.dynamicMarkFile != "" && MarkOk(p) && (p.wholeCard || p.vdvInd >= 0)
  }

  /** The records of the ledger stand for different allocations out of `allocs`. */
  ghost predicate Backed(prepared: Ledger, holders: seq<Option<Slot>>, allocs: seq<Capacity.Allocation>,
                         cards: map<string, Capacity.Card>, sizes: map<int, Size>) {
    Holds(prepared, holders) && AllStand(prepared, holders, allocs, cards, sizes)
  }

  ghost predicate AllStand(prepared: Ledger, holders: seq<Option<Slot>>, allocs: seq<Capacity.Allocation>,
                           cards: map<string, Capacity.Card>, sizes: map<int, Size>) {
    && |holders| == |allocs|
    && forall j | 0 <= j < |holders| && holders[j].Some? ::
      HasSlot(prepared, holders[j].value) && StandsFor(RecordAt(prepared, holders[j].value), allocs[j], cards, sizes)
  }

  lemma AllStandAppend(prepared: Ledger, holders: seq<Option<Slot>>, allocs: seq<Capacity.Allocation>,
                       more: seq<Option<Slot>>, news: seq<Capacity.Allocation>, cards: map<string, Capacity.Card>,
                       sizes: map<int, Size>)
    requires AllStand(prepared, holders, allocs, cards, sizes) && AllStand(prepared, more, news, cards, sizes)
    ensures AllStand(prepared, holders + more, allocs + news, cards, sizes)
  {
    var all, allocs' := holders + more, allocs + news;
    forall j | 0 <= j < |all| && all[j].Some?
      ensures HasSlot(prepared, all[j].value) && StandsFor(RecordAt(prepared, all[j].value), allocs'[j], cards, sizes)
    {
      if j < |holders| {
        assert all[j] == holders[j];
      } else {
        assert all[j] == more[j - |holders|];
      }
    }
  }

  /** The allocation of a record. */
  lemma AllocationHolding(prepared: Ledger, holders: seq<Option<Slot>>, allocs: seq<Capacity.Allocation>,
                          cards: map<string, Capacity.Card>, sizes: map<int, Size>, u: UID, q: PreparedDevice)
      returns (j: nat)
    requires Backed(prepared, holders, allocs, cards, sizes) && u in prepared && q in prepared[u]
    ensures j < |allocs| && StandsFor(q, allocs[j], cards, sizes)
  {
    var m :| 0 <= m < |prepared[u]| && prepared[u][m] == q;
    assert HasSlot(prepared, (u, m)) && HeldBy(holders, (u, m));
    j :| 0 <= j < |holders| && holders[j] == Some((u, m));
  }

  /** Every record is what the request of its allocation asks for. */
  lemma LedgerIsAsAsked(prepared: Ledger, holders: seq<Option<Slot>>, allocs: seq<Capacity.Allocation>,
                        cards: map<string, Capacity.Card>, split: int, sizes: map<int, Size>, u: UID,
                        q: PreparedDevice)
      returns (j: nat)
    requires Backed(prepared, holders, allocs, cards, sizes) && AllAdmitted(allocs, cards, split)
    requires u in prepared && q in prepared[u] && forall a | a in allocs :: Capacity.Positive(a.request)
    ensures j < |allocs| && allocs[j].device == q.parentDevice && q.parentDevice in cards
    ensures q.wholeCard <==> allocs[j].request.cores.None? && allocs[j].request.memory.None?
    ensures !q.wholeCard ==> q.vdvInd in sizes && Capacity.AsAsked(cards[q.parentDevice], allocs[j].request,
      sizes[q.vdvInd].cores, sizes[q.vdvInd].memMiB)
  {
    j := AllocationHolding(prepared, holders, allocs, cards, sizes, u, q);
    assert allocs[j] in allocs && Capacity.Admitted(allocs, q.parentDevice, cards[q.parentDevice], split);
    Capacity.CarvingIsAsked(cards[q.parentDevice], split, allocs[j].request);
  }

  /** The scheduler has admitted these allocations together. */
  predicate AllAdmitted(allocs: seq<Capacity.Allocation>, cards: map<string, Capacity.Card>, split: int) {
    forall d | d in cards :: Capacity.Carvable(cards[d]) && Capacity.Admitted(allocs, d, cards[d], split)
  }

  /** The allocations of a claim. */
  ghost function AllocationsOf(claim: ResourceClaim, own: seq<AllocationResult>): (r: seq<Capacity.Allocation>)
    ensures |r| == |own|
  {
    seq(|own|, k requires 0 <= k < |own| =>
      Capacity.Allocation(own[k].device, Capacity.RequestNamed(claim.requests, own[k].request)))
  }

  /** Once prepared, the claim's records stand for its own allocations, and the other records for theirs as before. */
  lemma BackedAfterPrepare(before: Ledger, holders: seq<Option<Slot>>, allocs: seq<Capacity.Allocation>,
                           cards: map<string, Capacity.Card>, claim: ResourceClaim, list: seq<PreparedDevice>,
                           own: seq<AllocationResult>, allocatable: map<string, AllocatableDevice>, layout: Layout,
                           v: map<int, int>, sizes: map<int, Size>, sizes': map<int, Size>)
      returns (holders': seq<Option<Slot>>)
    requires Backed(before, holders, allocs, cards, sizes) && !Known(before, claim.uid)
    requires Tracked(before) <= v.Keys && SizesStay(v, sizes, sizes')
    requires Matches(list, claim, own, allocatable, layout, sizes')
    requires forall d | d in allocatable :: d in cards && cards[d] == allocatable[d].capacity
    ensures Backed(before[claim.uid := list], holders', allocs + AllocationsOf(claim, own), cards, sizes')
  {
    var after := before[claim.uid := list];
    var more := seq(|own|, k requires 0 <= k < |own| => Some((claim.uid, k)));
    holders' := holders + more;
    HoldsAfterPrepare(before, holders, claim.uid, list, more);
    OldStand(before, holders, allocs, cards, claim.uid, list, v, sizes, sizes');
    NewStand(before, cards, claim, list, own, allocatable, layout, sizes', more);
    AllStandAppend(after, holders, allocs, more, AllocationsOf(claim, own), cards, sizes');
  }

  lemma NewStand(before: Ledger, cards: map<string, Capacity.Card>, claim: ResourceClaim, list: seq<PreparedDevice>,
                 own: seq<AllocationResult>, allocatable: map<string, AllocatableDevice>, layout: Layout,
                 sizes: map<int, Size>, more: seq<Option<Slot>>)
    requires Matches(list, claim, own, allocatable, layout, sizes)
    requires |more| == |own| && forall k | 0 <= k < |own| :: more[k] == Some((claim.uid, k))
    requires forall d | d in allocatable :: d in cards && cards[d] == allocatable[d].capacity
    ensures AllStand(before[claim.uid := list], more, AllocationsOf(claim, own), cards, sizes)
  {
    forall k | 0 <= k < |own| ensures StandsFor(list[k], AllocationsOf(claim, own)[k], cards, sizes) {
      assert MadeFor(list[k], claim, own[k], allocatable, layout, sizes);
    }
  }

  lemma OldStand(before: Ledger, holders: seq<Option<Slot>>, allocs: seq<Capacity.Allocation>,
                 cards: map<string, Capacity.Card>, uid: UID, list: seq<PreparedDevice>, v: map<int, int>,
                 sizes: map<int, Size>, sizes': map<int, Size>)
    requires AllStand(before, holders, allocs, cards, sizes) && !Known(before, uid)
    requires Tracked(before) <= v.Keys && SizesStay(v, sizes, sizes')
    ensures AllStand(before[uid := list], holders, allocs, cards, sizes')
  {
    forall j | 0 <= j < |holders| && holders[j].Some?
      ensures StandsFor(RecordAt(before, holders[j].value), allocs[j], cards, sizes')
    {
      var p := RecordAt(before, holders[j].value);
      assert !p.wholeCard ==> p.vdvInd in Tracked(before);
    }
  }

  lemma HoldsAfterPrepare(before: Ledger, holders: seq<Option<Slot>>, uid: UID, list: seq<PreparedDevice>,
                          more: seq<Option<Slot>>)
    requires Holds(before, holders) && !Known(before, uid)
    requires |more| == |list| && forall k | 0 <= k < |list| :: more[k] == Some((uid, k))
    ensures Holds(before[uid := list], holders + more)
  {
    var after, holders' := before[uid := list], holders + more;
    forall slot | HasSlot(after, slot) ensures HeldBy(holders', slot) {
      if slot.0 == uid {
        assert holders'[|holders| + slot.1] == Some(slot);
      } else {
        assert HasSlot(before, slot);
        var j :| 0 <= j < |holders| && holders[j] == Some(slot);
        assert holders'[j] == Some(slot);
      }
    }
  }

  function Without<T>(s: seq<T>, j: nat): (r: seq<T>)
    requires j < |s|
    ensures |r| == |s| - 1 && (forall i | 0 <= i < j :: r[i] == s[i]) && forall i | j <= i < |r| :: r[i] == s[i + 1]
  {
    s[..j] + s[j + 1..]
  }

  lemma HoldsWithout(prepared: Ledger, holders: seq<Option<Slot>>, j: nat)
    requires Holds(prepared, holders) && j < |holders| && holders[j].None?
    ensures Holds(prepared, Without(holders, j))
  {
    var rest := Without(holders, j);
    forall slot | HasSlot(prepared, slot) ensures HeldBy(rest, slot) {
      assert HeldBy(holders, slot);
      var i :| 0 <= i < |holders| && holders[i] == Some(slot);
      assert rest[if i < j then i else i - 1] == Some(slot);
    }
  }

  lemma StandWithout(prepared: Ledger, holders: seq<Option<Slot>>, allocs: seq<Capacity.Allocation>,
                     cards: map<string, Capacity.Card>, sizes: map<int, Size>, j: nat)
    requires AllStand(prepared, holders, allocs, cards, sizes) && j < |holders|
    ensures AllStand(prepared, Without(holders, j), Without(allocs, j), cards, sizes)
  {
    var rest := Without(holders, j);
    forall i | 0 <= i < |rest| && rest[i].Some?
      ensures HasSlot(prepared, rest[i].value)
      ensures StandsFor(RecordAt(prepared, rest[i].value), Without(allocs, j)[i], cards, sizes)
    {
      var k := if i < j then i else i + 1;
      assert holders[k].Some? && holders[k] == rest[i] && allocs[k] == Without(allocs, j)[i];
    }
  }

  /** What is left of these allocations is among them, and is admitted if they are. */
  ghost predicate Fewer(allocs: seq<Capacity.Allocation>, allocs': seq<Capacity.Allocation>,
                        cards: map<string, Capacity.Card>) {
    && (forall a | a in allocs' :: a in allocs)
    && forall split | AllAdmitted(allocs, cards, split) :: AllAdmitted(allocs', cards, split)
  }

  lemma DropAdmitted(allocs: seq<Capacity.Allocation>, cards: map<string, Capacity.Card>, j: nat)
    requires j < |allocs|
    ensures Fewer(allocs, Without(allocs, j), cards)
  {
    forall split | AllAdmitted(allocs, cards, split) ensures AllAdmitted(Without(allocs, j), cards, split) {
      forall d | d in cards ensures Capacity.Admitted(Without(allocs, j), d, cards[d], split) {
        Capacity.UsedWithout(allocs, d, cards[d], split, j);
      }
    }
  }

  /** All allocations that hold no record can be dropped. */
  lemma {:induction false} DropUnheld(prepared: Ledger, holders: seq<Option<Slot>>, allocs: seq<Capacity.Allocation>,
                              cards: map<string, Capacity.Card>, sizes: map<int, Size>)
      returns (holders': seq<Option<Slot>>, allocs': seq<Capacity.Allocation>)
    requires Backed(prepared, holders, allocs, cards, sizes)
    ensures Backed(prepared, holders', allocs', cards, sizes) && Fewer(allocs, allocs', cards)
    ensures forall j | 0 <= j < |holders'| :: holders'[j].Some?
    decreases |holders|
  {
    if j :| 0 <= j < |holders| && holders[j].None? {
      HoldsWithout(prepared, holders, j);
      StandWithout(prepared, holders, allocs, cards, sizes, j);
      DropAdmitted(allocs, cards, j);
      holders', allocs' := DropUnheld(prepared, Without(holders, j), Without(allocs, j), cards, sizes);
    } else {
      holders', allocs' := holders, allocs;
    }
  }

  /**
   The records that stay after a removal stand for what they stood for, and the allocations of the removed claims are
   free: each of those left holds a record, and they are admitted together if all were.
   */
  lemma BackedAfterRemoval(before: Ledger, holders: seq<Option<Slot>>, allocs: seq<Capacity.Allocation>,
                           cards: map<string, Capacity.Card>, sizes: map<int, Size>, uids: set<UID>)
      returns (holders': seq<Option<Slot>>, allocs': seq<Capacity.Allocation>)
    requires Backed(before, holders, allocs, cards, sizes)
    ensures Backed(before - uids, holders', allocs', cards, sizes) && Fewer(allocs, allocs', cards)
    ensures forall j | 0 <= j < |holders'| :: holders'[j].Some?
  {
    var freed := seq(|holders|, j requires 0 <= j < |holders| =>
      if holders[j].Some? && holders[j].value.0 in uids then None else holders[j]);
    forall slot | HasSlot(before - uids, slot) ensures HeldBy(freed, slot) {
      assert HasSlot(before, slot);
      var j :| 0 <= j < |holders| && holders[j] == Some(slot);
      assert freed[j] == Some(slot);
    }
    holders', allocs' := DropUnheld(before - uids, freed, allocs, cards, sizes);
  }

  /** Equal marks come from the same card and the same kind of device on it, whoever the pods are. */
  lemma SameMarkSameDevice(p: PreparedDevice, q: PreparedDevice)
    requires MarkOk(p) && MarkOk(q) && p.dynamicMarkFile == q.dynamicMarkFile != ""
    ensures p.dvInd == q.dvInd && MarkIndex(p.wholeCard, p.vdvInd) == MarkIndex(q.wholeCard, q.vdvInd)
  {
    MarkNameTail(LeadOf(p), ContainerOf(p), p.dvInd, MarkIndex(p.wholeCard, p.vdvInd), LeadOf(q), ContainerOf(q),
      q.dvInd, MarkIndex(q.wholeCard, q.vdvInd));
  }

  /** Each card index belongs to one card. */
  ghost predicate OneIndexPerCard(prepared: Ledger, cardOf: map<int, string>) {
    forall u | u in prepared :: forall p | p in prepared[u] :: p.dvInd in cardOf && p.parentDevice == cardOf[p.dvInd]
  }

  /** All marks of the ledger are different. */
  lemma LedgerMarksAreDistinct(prepared: Ledger, holders: seq<Option<Slot>>, allocs: seq<Capacity.Allocation>,
                               cards: map<string, Capacity.Card>, split: int, sizes: map<int, Size>,
                               cardOf: map<int, string>, a: Slot, b: Slot)
    requires Backed(prepared, holders, allocs, cards, sizes) && AllAdmitted(allocs, cards, split)
    requires Distinct(prepared) && OneIndexPerCard(prepared, cardOf)
    requires HasSlot(prepared, a) && HasSlot(prepared, b) && a != b
    ensures RecordAt(prepared, a).dynamicMarkFile != RecordAt(prepared, b).dynamicMarkFile
  {
    var p, q := prepared[a.0][a.1], prepared[b.0][b.1];
    assert HeldBy(holders, a) && HeldBy(holders, b);
    var i :| 0 <= i < |holders| && holders[i] == Some(a);
    var j :| 0 <= j < |holders| && holders[j] == Some(b);
    if p.dynamicMarkFile == q.dynamicMarkFile {
      SameMarkSameDevice(p, q);
      if p.wholeCard {
        Capacity.WholeCardIsExclusive(allocs, allocs[i].device, cards[allocs[i].device], split, i, j);
      } else {
        DifferentVhcus(prepared, a, b);
      }
    }
  }

  lemma DifferentVhcus(prepared: Ledger, a: Slot, b: Slot)
    requires Distinct(prepared) && HasSlot(prepared, a) && HasSlot(prepared, b) && a != b
    requires !prepared[a.0][a.1].wholeCard && !prepared[b.0][b.1].wholeCard
    ensures prepared[a.0][a.1].vdvInd != prepared[b.0][b.1].vdvInd
  {
    if a.0 == b.0 {
      assert NoRepeat(prepared[a.0]);
    } else {
      assert prepared[a.0][a.1].vdvInd in Indices(prepared[a.0]) && prepared[b.0][b.1].vdvInd in Indices(prepared[b.0]);
    }
  }

  /** Cards known to both have one index each. */
  ghost predicate IndicesAgree(prepared: Ledger, allocatable: map<string, AllocatableDevice>) {
    forall u, d | u in prepared && d in allocatable :: forall q | q in prepared[u] && q.dvInd == allocatable[d].dvInd ::
      q.parentDevice == d
  }

  /**
   A name that is a Prepare's to give is nobody's mark: not a vHCU's, whose index is taken, and not a whole card's,
   which the scheduler would not have admitted beside this claim.
   */
  lemma OursIsNobodys(prepared: Ledger, holders: seq<Option<Slot>>, allocs: seq<Capacity.Allocation>,
                      cards: map<string, Capacity.Card>, split: int, sizes: map<int, Size>, claim: ResourceClaim,
                      own: seq<AllocationResult>, allocatable: map<string, AllocatableDevice>, layout: Layout,
                      v: map<int, int>, n: string)
    requires Backed(prepared, holders, allocs, cards, sizes) && Tracked(prepared) <= v.Keys
    requires AllAdmitted(allocs + AllocationsOf(claim, own), cards, split) && IndicesAgree(prepared, allocatable)
    requires forall d | d in allocatable :: d in cards && cards[d] == allocatable[d].capacity
    requires Ours(n, claim, own, allocatable, layout, v)
    ensures n !in ActiveMarks(prepared)
  {
    var k :| 0 <= k < |own| && OursFor(n, claim, own[k], allocatable, layout, v);
    var p :| WouldMark(p, n, claim, own[k], allocatable[own[k].device], layout, v);
    forall u, q | u in prepared && q in prepared[u] ensures q.dynamicMarkFile != n {
      var j := AllocationHolding(prepared, holders, allocs, cards, sizes, u, q);
      assert !q.wholeCard ==> q.vdvInd in Tracked(prepared);
      NotThisMark(allocs, cards, split, sizes, claim, own, allocatable, layout, v, p, k, q, j, n);
    }
  }

  lemma NotThisMark(allocs: seq<Capacity.Allocation>, cards: map<string, Capacity.Card>, split: int,
                    sizes: map<int, Size>, claim: ResourceClaim, own: seq<AllocationResult>,
                    allocatable: map<string, AllocatableDevice>, layout: Layout, v: map<int, int>, p: PreparedDevice,
                    k: nat, q: PreparedDevice, j: nat, n: string)
    requires k < |own| && own[k].device in allocatable && own[k].device in cards
    requires WouldMark(p, n, claim, own[k], allocatable[own[k].device], layout, v)
    requires cards[own[k].device] == allocatable[own[k].device].capacity
    requires j < |allocs| && StandsFor(q, allocs[j], cards, sizes) && (q.wholeCard || q.vdvInd in v)
    requires q.dvInd == allocatable[own[k].device].dvInd ==> q.parentDevice == own[k].device
    requires AllAdmitted(allocs + AllocationsOf(claim, own), cards, split)
    ensures q.dynamicMarkFile != n
  {
    if q.dynamicMarkFile == n {
      SameMarkSameDevice(p, q);
      if q.wholeCard {
        TwoWholeCards(allocs, cards, split, sizes, claim, own, allocatable, j, k, q);
      }
    }
  }

  /** No whole card is recorded on the card that another claim has been allocated as a whole. */
  lemma TwoWholeCards(allocs: seq<Capacity.Allocation>, cards: map<string, Capacity.Card>, split: int,
                      sizes: map<int, Size>, claim: ResourceClaim, own: seq<AllocationResult>,
                      allocatable: map<string, AllocatableDevice>, j: nat, k: nat, q: PreparedDevice)
    requires j < |allocs| && StandsFor(q, allocs[j], cards, sizes) && q.wholeCard
    requires k < |own| && own[k].device in allocatable && own[k].device in cards
    requires cards[own[k].device] == allocatable[own[k].device].capacity && q.parentDevice == own[k].device
    requires AllAdmitted(allocs + AllocationsOf(claim, own), cards, split)
    ensures Capacity.CarvingFor(claim.requests, own[k].request, allocatable[own[k].device].capacity) !=
      Capacity.WholeCard
  {
    var all := allocs + AllocationsOf(claim, own);
    assert all[j] == allocs[j] && all[|allocs| + k] == AllocationsOf(claim, own)[k];
    Capacity.WholeCardIsExclusive(all, own[k].device, cards[own[k].device], split, j, |allocs| + k);
  }

  /** Prepare touches no mark that anybody has: whatever fails, recorded marks stay. */
  lemma RecordedMarksStay(prepared: Ledger, holders: seq<Option<Slot>>, allocs: seq<Capacity.Allocation>,
                          cards: map<string, Capacity.Card>, split: int, sizes: map<int, Size>, claim: ResourceClaim,
                          own: seq<AllocationResult>, allocatable: map<string, AllocatableDevice>, layout: Layout,
                          v: map<int, int>, touched: set<string>, e: map<string, Entry>, e': map<string, Entry>)
    requires Backed(prepared, holders, allocs, cards, sizes) && Tracked(prepared) <= v.Keys
    requires AllAdmitted(allocs + AllocationsOf(claim, own), cards, split) && IndicesAgree(prepared, allocatable)
    requires forall d | d in allocatable :: d in cards && cards[d] == allocatable[d].capacity
    requires AllOurs(touched, claim, own, allocatable, layout, v) && KeepsMarks(prepared, touched, e, e')
    ensures forall n | n in ActiveMarks(prepared) && n in e :: n in e' && e'[n] == e[n]
  {
    forall n | n in touched ensures n !in ActiveMarks(prepared) {
      OursIsNobodys(prepared, holders, allocs, cards, split, sizes, claim, own, allocatable, layout, v, n);
    }
    BackedIsSpelt(prepared, holders, allocs, cards, sizes);
    MarksOkIsSpelt(prepared);
  }

  lemma BackedIsSpelt(prepared: Ledger, holders: seq<Option<Slot>>, allocs: seq<Capacity.Allocation>,
                      cards: map<string, Capacity.Card>, sizes: map<int, Size>)
    requires Backed(prepared, holders, allocs, cards, sizes)
    ensures MarksOk(prepared)
  {
    forall u, p | u in prepared && p in prepared[u] ensures MarkOk(p) {
      var j := AllocationHolding(prepared, holders, allocs, cards, sizes, u, p);
    }
  }

  /** The records that allocations hold, one place each. */
  function HeldRecords(prepared: Ledger, holders: seq<Option<Slot>>): (r: seq<Option<PreparedDevice>>)
    requires Holds(prepared, holders)
    ensures |r| == |holders|
  {
    seq(|holders|, j requires 0 <= j < |holders| =>
      if holders[j].Some? then Some(RecordAt(prepared, holders[j].value)) else None)
  }

  /** Cores, memory in MiB and number of the recorded vHCUs on one card, as they were made. */
  function MadeOnCard(records: seq<Option<PreparedDevice>>, device: string, sizes: map<int, Size>): Capacity.Share {
    if records == [] then Capacity.Share(0, 0, 0)
    else
      var rest := MadeOnCard(records[1..], device, sizes);
      match records[0]
      case Some(p) =>
        if p.parentDevice == device && !p.wholeCard && p.vdvInd in sizes
        then Capacity.Plus(Capacity.Share(sizes[p.vdvInd].cores, sizes[p.vdvInd].memMiB, 1), rest)
        else rest
      case None => rest
  }

  /** What has been made on a card is at most what the allocations there are carved into. */
  lemma {:induction false} MadeIsCarved(records: seq<Option<PreparedDevice>>, allocs: seq<Capacity.Allocation>,
                                device: string, cards: map<string, Capacity.Card>, sizes: map<int, Size>)
    requires device in cards && |records| == |allocs|
    requires forall j | 0 <= j < |records| && records[j].Some? :: StandsFor(records[j].value, allocs[j], cards, sizes)
    ensures var made, carved := MadeOnCard(records, device, sizes), Capacity.Carved(allocs, device, cards[device]);
            made.cores <= carved.cores && made.memory <= carved.memory && made.slices <= carved.slices
  {
    if records != [] {
      assert forall j | 0 <= j < |records[1..]| :: records[1..][j] == records[j + 1] && allocs[1..][j] == allocs[j + 1];
      MadeIsCarved(records[1..], allocs[1..], device, cards, sizes);
    }
  }

  /** The vHCUs that the ledger records on a card fit there together, in cores, memory and number. */
  lemma LedgerFitsCards(prepared: Ledger, holders: seq<Option<Slot>>, allocs: seq<Capacity.Allocation>,
                        cards: map<string, Capacity.Card>, split: int, sizes: map<int, Size>, device: string)
    requires Backed(prepared, holders, allocs, cards, sizes) && AllAdmitted(allocs, cards, split) && device in cards
    requires forall a | a in allocs && a.device == device :: Capacity.Positive(a.request)
    ensures var made, card := MadeOnCard(HeldRecords(prepared, holders), device, sizes), cards[device];
            made.cores <= card.computeUnits && made.memory * Capacity.MIB <= card.memoryBytes && made.slices <= split
  {
    MadeIsCarved(HeldRecords(prepared, holders), allocs, device, cards, sizes);
    Capacity.CarveUpConserves(allocs, device, cards[device], split);
  }
}
