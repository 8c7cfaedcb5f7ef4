/** The records the driver keeps, and what the ledger of prepared claims says about the vHCUs on the host. */
module Types {
  type UID = string

  /** One device handed to a claim. `vdvInd` and `pciBusNumber` mean something only when `wholeCard` is false. */
  datatype PreparedDevice = PreparedDevice(
    claimUID: UID, parentDevice: string, requestName: string, poolName: string,
    wholeCard: bool, vdvInd: int, pciBusNumber: string,
    cdiName: string, cdiDeviceID: string,
    dynamicMarkFile: string, podUID: string, containerName: string, dvInd: int)

  type Ledger = map<UID, seq<PreparedDevice>>

  /** The vHCU indices a device list stands for. */
  function Indices(list: seq<PreparedDevice>): set<int> {
    set p | p in list && !p.wholeCard :: p.vdvInd
  }

  /** The vHCU indices the whole ledger stands for. */
  function Tracked(ledger: Ledger): set<int> {
    set u, p | u in ledger && p in ledger[u] && !p.wholeCard :: p.vdvInd
  }

  /** The vHCU indices some of its claims stand for. */
  function TrackedBy(ledger: Ledger, uids: set<UID>): set<int> {
    set u, p | u in ledger && u in uids && p in ledger[u] && !p.wholeCard :: p.vdvInd
  }

  /** No vHCU occurs twice in the list. */
  ghost predicate NoRepeat(list: seq<PreparedDevice>) {
    forall a, b | 0 <= a < b < |list| && !list[a].wholeCard && !list[b].wholeCard ::
      list[a].vdvInd != list[b].vdvInd
  }

  /** No vHCU is recorded twice, within one claim or across claims. */
  ghost predicate Distinct(ledger: Ledger) {
    && (forall u | u in ledger :: NoRepeat(ledger[u]))
    && (forall u, v | u in ledger && v in ledger && u != v :: Indices(ledger[u]) !! Indices(ledger[v]))
  }

  lemma TrackedIff(ledger: Ledger, i: int)
    ensures i in Tracked(ledger) <==> exists u :: u in ledger && i in Indices(ledger[u])
  {
  }

  lemma TrackedContains(ledger: Ledger, u: UID)
    requires u in ledger
    ensures Indices(ledger[u]) <= Tracked(ledger)
  {
  }

  lemma TrackedUpdate(ledger: Ledger, u: UID, list: seq<PreparedDevice>)
    ensures Tracked(ledger[u := list]) == Tracked(ledger - {u}) + Indices(list)
  {
    var l, rest := ledger[u := list], ledger - {u};
    forall i ensures i in Tracked(l) <==> i in Tracked(rest) + Indices(list) {
      TrackedIff(l, i);
      TrackedIff(rest, i);
      if i in Indices(list) {
        assert i in Indices(l[u]);
      }
      if v :| v in rest && i in Indices(rest[v]) {
        assert i in Indices(l[v]);
      }
      if v :| v in l && i in Indices(l[v]) && v != u {
        assert i in Indices(rest[v]);
      }
    }
  }

  lemma TrackedRemove(ledger: Ledger, u: UID)
    requires Distinct(ledger)
    ensures Tracked(ledger - {u}) <= Tracked(ledger)
    ensures u in ledger ==> Tracked(ledger) == Tracked(ledger - {u}) + Indices(ledger[u])
    ensures u in ledger ==> Tracked(ledger - {u}) !! Indices(ledger[u])
    ensures u !in ledger ==> Tracked(ledger - {u}) == Tracked(ledger)
  {
    if u in ledger {
      assert ledger[u := ledger[u]] == ledger;
      TrackedUpdate(ledger, u, ledger[u]);
      forall i | i in Tracked(ledger - {u}) ensures i !in Indices(ledger[u]) {
        TrackedIff(ledger - {u}, i);
        var v :| v in ledger - {u} && i in Indices((ledger - {u})[v]);
        assert Indices(ledger[v]) !! Indices(ledger[u]);
      }
    } else {
      assert ledger - {u} == ledger;
    }
  }

  lemma TrackedBySnoc(ledger: Ledger, uids: set<UID>, u: UID)
    requires u in ledger
    ensures TrackedBy(ledger, uids + {u}) == TrackedBy(ledger, uids) + Indices(ledger[u])
  {
  }

  /** With vHCUs recorded once, the claims that go and the claims that stay have none in common. */
  lemma TrackedApart(ledger: Ledger, uids: set<UID>)
    requires Distinct(ledger)
    ensures Tracked(ledger - uids) !! TrackedBy(ledger, uids)
  {
    forall i | i in Tracked(ledger - uids) ensures i !in TrackedBy(ledger, uids) {
      TrackedIff(ledger - uids, i);
      var u :| u in ledger - uids && i in Indices((ledger - uids)[u]);
      assert i in Indices(ledger[u]);
      forall v, p | v in ledger && v in uids && p in ledger[v] && !p.wholeCard ensures p.vdvInd != i {
        assert p.vdvInd in Indices(ledger[v]);
      }
    }
  }

  lemma DistinctRemove(ledger: Ledger, u: UID)
    requires Distinct(ledger)
    ensures Distinct(ledger - {u})
  {
  }

  lemma DistinctUpdate(ledger: Ledger, u: UID, list: seq<PreparedDevice>)
    requires Distinct(ledger) && NoRepeat(list)
    requires Tracked(ledger - {u}) !! Indices(list)
    ensures Distinct(ledger[u := list])
  {
    var l := ledger[u := list];
    forall v | v in l && v != u ensures Indices(l[v]) !! Indices(list) {
      TrackedContains(ledger - {u}, v);
    }
  }

  lemma IndicesSnoc(list: seq<PreparedDevice>, p: PreparedDevice)
    ensures Indices(list + [p]) == Indices(list) + (if p.wholeCard then {} else {p.vdvInd})
    ensures NoRepeat(list + [p]) <==> NoRepeat(list) && (p.wholeCard || p.vdvInd !in Indices(list))
  {
    var all := list + [p];
    assert forall k | 0 <= k < |list| :: all[k] == list[k];
    if q :| q in list && !q.wholeCard && !p.wholeCard && q.vdvInd == p.vdvInd {
      var k :| 0 <= k < |list| && list[k] == q;
      assert all[k] == q && all[|list|] == p;
    }
  }

  lemma IndicesTail(list: seq<PreparedDevice>)
    requires list != []
    ensures Indices(list) == Indices(list[1..]) + (if list[0].wholeCard then {} else {list[0].vdvInd})
    ensures NoRepeat(list) ==> NoRepeat(list[1..])
    ensures NoRepeat(list) && !list[0].wholeCard ==> list[0].vdvInd !in Indices(list[1..])
  {
  }
}
