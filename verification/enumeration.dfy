/** Which vHCUs and cards the ledger speaks of, stale vHCUs on the host, and the cards to publish. */
module Enumeration {
  import opened Types
  import opened Dcgm
  import opened StateFile
  import opened Allocatable

  /** preparedVDvIndSet */
  method PreparedVDvIndSet(prepared: Ledger) returns (tracked: set<int>)
    ensures tracked == Tracked(prepared)
  {
    tracked := {};
    var rest := prepared.Keys;
    while rest != {}
      decreases |rest|
      invariant rest <= prepared.Keys
      invariant tracked == set u, p | u in prepared && u !in rest && p in prepared[u] && !p.wholeCard :: p.vdvInd
    {
      var u :| u in rest;
      ghost var before := tracked;
      for k := 0 to |prepared[u]|
        invariant tracked == before + Indices(prepared[u][..k])
      {
        var p := prepared[u][k];
        assert prepared[u][..k + 1] == prepared[u][..k] + [p];
        IndicesSnoc(prepared[u][..k], p);
        if !p.wholeCard {
          tracked := tracked + {p.vdvInd};
        }
      }
      assert prepared[u][..|prepared[u]|] == prepared[u];
      rest := rest - {u};
    }
  }

  /** The cards named by some ledger entry. */
  function ParentNames(prepared: Ledger): set<string> {
    set u, p | u in prepared && p in prepared[u] && p.parentDevice != "" :: p.parentDevice
  }

  /** preparedParentDeviceNames */
  method PreparedParentDeviceNames(prepared: Ledger) returns (parents: set<string>)
    ensures parents == ParentNames(prepared)
  {
    parents := {};
    var rest := prepared.Keys;
    while rest != {}
      decreases |rest|
      invariant rest <= prepared.Keys
      invariant parents == set u, p | u in prepared && u !in rest && p in prepared[u] && p.parentDevice != "" ::
        p.parentDevice
    {
      var u :| u in rest;
      ghost var before := parents;
      for k := 0 to |prepared[u]|
        invariant parents == before + set p | p in prepared[u][..k] && p.parentDevice != "" :: p.parentDevice
      {
        var p := prepared[u][k];
        assert prepared[u][..k + 1] == prepared[u][..k] + [p];
        if p.parentDevice != "" {
          parents := parents + {p.parentDevice};
        }
      }
      assert prepared[u][..|prepared[u]|] == prepared[u];
      rest := rest - {u};
    }
  }

  /** vHCUs have only been removed, and no recorded one. */
  ghost predicate Reconciled(prepared: Ledger, v: map<int, int>, l: set<int>, v': map<int, int>, l': set<int>) {
    && (forall i | i in v' :: i in v && v'[i] == v[i])
    && (forall i | i in v && i in Tracked(prepared) :: i in v')
    && (forall i | i in Tracked(prepared) :: i in l' <==> i in l)
  }

  /**
   When the listing has succeeded every unrecorded vHCU is gone or was left by a failed destroy, and otherwise nothing
   has changed; `missed` counts the failed listings.
   */
  ghost predicate Drained(prepared: Ledger, v: map<int, int>, l: set<int>, v': map<int, int>, l': set<int>,
                          missed: int) {
    && Reconciled(prepared, v, l, v', l') && 0 <= missed <= 1
    && (missed == 0 ==> forall i | i in v' :: i in Tracked(prepared) || i in l')
    && (missed == 1 ==> v' == v && l' == l)
  }

  /**
   reconcileStaleHostVDevices. It only removes vHCUs, and no recorded one; once the listing succeeds, an unrecorded vHCU
   stays only if its destroy fails, whatever else fails. Only a failed listing is a failure without a lapse. When none
   of its calls fails, the vHCUs left are exactly the recorded ones that were there.
   */
  method ReconcileStaleHostVDevices(host: Host, prepared: Ledger)
    requires host.Valid()
    modifies host`vdevs, host`leaked, host`failures, host`lapses
    ensures host.Valid() && host.Counted()
    ensures Drained(prepared, old(host.vdevs), old(host.leaked), host.vdevs, host.leaked,
      (host.failures - old(host.failures)) - (host.lapses - old(host.lapses)))
    ensures host.failures == old(host.failures) ==> host.vdevs.Keys == old(host.vdevs.Keys) * Tracked(prepared)
  {
    var tracked := PreparedVDvIndSet(prepared);
    var listed := host.VDeviceInfos();
    if listed.None? {
      return;
    }
    var infos := listed.value;
    for k := 0 to |infos|
      invariant host.Valid() && host.Counted()
      invariant host.failures - old(host.failures) == host.lapses - old(host.lapses)
      invariant forall i | i in host.vdevs :: i in old(host.vdevs) && host.vdevs[i] == old(host.vdevs)[i]
      invariant forall i | i in old(host.vdevs) && i in tracked :: i in host.vdevs
      invariant forall i | i in tracked :: i in host.leaked <==> i in old(host.leaked)
      invariant forall j | 0 <= j < k && infos[j].vdvInd in host.vdevs ::
        infos[j].vdvInd in tracked || (infos[j].vdvInd in host.leaked && host.failures > old(host.failures))
    {
      if infos[k].vdvInd !in tracked {
        var _ := host.DestroySingleVDevice(infos[k].vdvInd);
      }
    }
    forall i | i in host.vdevs ensures i in tracked || (i in host.leaked && host.failures > old(host.failures)) {
      var info := VDeviceInfo(i, old(host.vdevs)[i]);
      assert info in infos;
    }
  }

  /** A card that buildAllocatable publishes: it has an address, and no vHCU or one that the ledger may know. */
  predicate Publishable(info: DeviceInfo, parents: set<string>) {
    info.card.pciBusNumber != "" && (info.vDeviceCount == 0 || CanonicalName(info.card.pciBusNumber) in parents)
  }

  function Published(infos: seq<DeviceInfo>, parents: set<string>): map<string, AllocatableDevice> {
    if infos == [] then map[]
    else
      var rest, info := Published(infos[..|infos| - 1], parents), infos[|infos| - 1];
      if Publishable(info, parents)
        then rest[CanonicalName(info.card.pciBusNumber) := NewAllocatableDevice(info.card).value] else rest
  }

  /** buildAllocatableFromDeviceInfos */
  method BuildAllocatable(infos: seq<DeviceInfo>, prepared: Ledger) returns (r: map<string, AllocatableDevice>)
    ensures r == Published(infos, ParentNames(prepared))
  {
    var parents := PreparedParentDeviceNames(prepared);
    r := map[];
    for k := 0 to |infos|
      invariant r == Published(infos[..k], parents)
    {
      assert infos[..k + 1][..k] == infos[..k];
      var info := infos[k];
      if info.vDeviceCount != 0 && CanonicalName(info.card.pciBusNumber) !in parents {
        continue;
      }
      match NewAllocatableDevice(info.card)
      case None =>
      case Some(alloc) => r := r[alloc.name := alloc];
    }
    assert infos[..|infos|] == infos;
  }

  /** The k-th reported card is publishable under that name. */
  ghost predicate Source(infos: seq<DeviceInfo>, parents: set<string>, name: string, k: int) {
    0 <= k < |infos| && Publishable(infos[k], parents) && CanonicalName(infos[k].card.pciBusNumber) == name
  }

  lemma SourceOfInit(infos: seq<DeviceInfo>, parents: set<string>, name: string, k: int)
    requires infos != []
    ensures var n := |infos| - 1;
            Source(infos[..n], parents, name, k) <==> Source(infos, parents, name, k) && k != n
  {
  }

  /** A name is published exactly when a publishable card has it, and what is published is such a card. */
  lemma {:induction false} PublishedIff(infos: seq<DeviceInfo>, parents: set<string>, name: string)
    ensures var r := Published(infos, parents);
            && (name in r <==> exists k :: Source(infos, parents, name, k))
            && (name in r ==> r[name].name == name && exists k ::
              Source(infos, parents, name, k) && Some(r[name]) == NewAllocatableDevice(infos[k].card))
  {
    if infos != [] {
      var n := |infos| - 1;
      var init := infos[..n];
      PublishedIff(init, parents, name);
      forall k ensures Source(init, parents, name, k) <==> Source(infos, parents, name, k) && k != n {
        SourceOfInit(infos, parents, name, k);
      }
      assert Publishable(infos[n], parents) && CanonicalName(infos[n].card.pciBusNumber) == name ==>
        Source(infos, parents, name, n);
    }
  }

  /** The card of that index, if it is reported with a PCI address, has that name. */
  ghost predicate NamesCard(name: string, cards: seq<CardInfo>, dvInd: int) {
    forall k | 0 <= k < |cards| && cards[k].dvInd == dvInd && cards[k].pciBusNumber != "" ::
      CanonicalName(cards[k].pciBusNumber) == name
  }

  /** Every recorded vHCU sits on the card that its record names. */
  ghost predicate SitsOnParent(prepared: Ledger, cards: seq<CardInfo>, vdevs: map<int, int>) {
    forall u | u in prepared :: forall p | p in prepared[u] && !p.wholeCard && p.vdvInd in vdevs ::
      NamesCard(p.parentDevice, cards, vdevs[p.vdvInd])
  }

  /** The name of some reported card with a PCI address. */
  ghost predicate IsCardName(cards: seq<CardInfo>, name: string) {
    exists k :: 0 <= k < |cards| && cards[k].pciBusNumber != "" && CanonicalName(cards[k].pciBusNumber) == name
  }

  /**
   No card starves: once only recorded vHCUs are left and each sits on the card its record names, every reported card
   with a PCI address is published, and nothing else is.
   */
  lemma NoCardStarves(prepared: Ledger, cards: seq<CardInfo>, vdevs: map<int, int>, name: string)
    requires vdevs.Keys <= Tracked(prepared) && SitsOnParent(prepared, cards, vdevs)
    ensures name in Published(Report(cards, vdevs), ParentNames(prepared)) <==> IsCardName(cards, name)
  {
    var infos, parents := Report(cards, vdevs), ParentNames(prepared);
    PublishedIff(infos, parents, name);
    forall k | 0 <= k < |cards| && cards[k].pciBusNumber != ""
      ensures Source(infos, parents, CanonicalName(cards[k].pciBusNumber), k)
    {
      if infos[k].vDeviceCount != 0 {
        var i := SomeElement(On(vdevs, cards[k].dvInd));
        var u, p :| u in prepared && p in prepared[u] && !p.wholeCard && p.vdvInd == i;
        assert NamesCard(p.parentDevice, cards, vdevs[i]);
      }
    }
    assert forall k :: Source(infos, parents, name, k) ==> infos[k].card == cards[k];
  }

  /** The reported cards have different addresses, all of one shape. */
  ghost predicate DistinctAddresses(cards: seq<CardInfo>) {
    && (forall k | 0 <= k < |cards| :: cards[k].pciBusNumber != "")
    && forall j, k | 0 <= j < k < |cards| ::
      SameShape(cards[j].pciBusNumber, cards[k].pciBusNumber) && cards[j].pciBusNumber != cards[k].pciBusNumber
  }

  /** The published device is that card. */
  predicate IsCard(d: AllocatableDevice, card: CardInfo) {
    && d.dvInd == card.dvInd && d.pciBusNumber == card.pciBusNumber && d.uuid == card.deviceId
    && d.capacity.computeUnits == card.computeUnits && d.capacity.memoryBytes == card.memoryBytes
  }

  /** Exactly one device is published for each card. */
  ghost predicate OnePerCard(allocatable: map<string, AllocatableDevice>, cards: seq<CardInfo>) {
    && |allocatable| == |cards|
    && (forall k | 0 <= k < |cards| :: exists name :: name in allocatable && IsCard(allocatable[name], cards[k]))
    && (forall name | name in allocatable :: exists k :: 0 <= k < |cards| && IsCard(allocatable[name], cards[k]))
  }

  /** The first n elements. */
  function Firsts<T>(s: seq<T>, n: nat): set<T>
    requires n <= |s|
  {
    if n == 0 then {} else Firsts(s, n - 1) + {s[n - 1]}
  }

  lemma {:induction false} FirstsIff<T>(s: seq<T>, n: nat, x: T)
    requires n <= |s|
    ensures x in Firsts(s, n) <==> exists k :: 0 <= k < n && s[k] == x
  {
    if n > 0 {
      FirstsIff(s, n - 1, x);
    }
  }

  lemma AddOne<T>(s: set<T>, x: T)
    requires x !in s
    ensures |s + {x}| == |s| + 1
  {
  }

  lemma {:induction false} AsManyFirsts<T>(s: seq<T>, n: nat)
    requires n <= |s| && forall j, k | 0 <= j < k < n :: s[j] != s[k]
    ensures |Firsts(s, n)| == n
  {
    if n > 0 {
      AsManyFirsts(s, n - 1);
      FirstsIff(s, n - 1, s[n - 1]);
      AddOne(Firsts(s, n - 1), s[n - 1]);
    }
  }

  function CardNames(cards: seq<CardInfo>): seq<string> {
    seq(|cards|, k requires 0 <= k < |cards| => CanonicalName(cards[k].pciBusNumber))
  }

  lemma CardNamesIff(cards: seq<CardInfo>, name: string)
    requires forall k | 0 <= k < |cards| :: cards[k].pciBusNumber != ""
    ensures name in Firsts(CardNames(cards), |cards|) <==> IsCardName(cards, name)
  {
    var names := CardNames(cards);
    FirstsIff(names, |cards|, name);
    if k :| 0 <= k < |cards| && CanonicalName(cards[k].pciBusNumber) == name {
      assert names[k] == name;
    }
    if k :| 0 <= k < |names| && names[k] == name {
      assert CanonicalName(cards[k].pciBusNumber) == name;
    }
  }

  /** Cards with different addresses of one shape have as many names. */
  lemma AsManyNames(cards: seq<CardInfo>)
    requires DistinctAddresses(cards)
    ensures |Firsts(CardNames(cards), |cards|)| == |cards|
  {
    var names := CardNames(cards);
    forall j, k | 0 <= j < k < |names| ensures names[j] != names[k] {
      if names[j] == names[k] {
        SameCard(cards, j, k);
      }
    }
    AsManyFirsts(names, |cards|);
  }

  /**
   Once only recorded vHCUs are left and each sits on the card its record names, exactly one device is published for
   each reported card, with that card's index, address, UUID and size.
   */
  lemma EveryCardIsPublished(prepared: Ledger, cards: seq<CardInfo>, vdevs: map<int, int>)
    requires vdevs.Keys <= Tracked(prepared) && SitsOnParent(prepared, cards, vdevs) && DistinctAddresses(cards)
    ensures OnePerCard(Published(Report(cards, vdevs), ParentNames(prepared)), cards)
  {
    var infos, parents := Report(cards, vdevs), ParentNames(prepared);
    var r := Published(infos, parents);
    var names := Firsts(CardNames(cards), |cards|);
    forall name ensures name in r.Keys <==> name in names {
      NoCardStarves(prepared, cards, vdevs, name);
      CardNamesIff(cards, name);
    }
    assert r.Keys == names;
    AsManyNames(cards);
    forall name | name in r
      ensures exists k ::
        0 <= k < |cards| && IsCard(r[name], cards[k]) && CanonicalName(cards[k].pciBusNumber) == name
    {
      PublishedIff(infos, parents, name);
      var k :| Source(infos, parents, name, k) && Some(r[name]) == NewAllocatableDevice(infos[k].card);
      assert infos[k].card == cards[k];
    }
    forall k | 0 <= k < |cards| ensures exists name :: name in r && IsCard(r[name], cards[k]) {
      var name := CanonicalName(cards[k].pciBusNumber);
      NoCardStarves(prepared, cards, vdevs, name);
      var j :| 0 <= j < |cards| && IsCard(r[name], cards[j]) && CanonicalName(cards[j].pciBusNumber) == name;
      SameCard(cards, j, k);
    }
  }

  lemma SameCard(cards: seq<CardInfo>, j: nat, k: nat)
    requires DistinctAddresses(cards) && j < |cards| && k < |cards|
    requires CanonicalName(cards[j].pciBusNumber) == CanonicalName(cards[k].pciBusNumber)
    ensures j == k
  {
    if j < k {
      CanonicalNameInjective(cards[j].pciBusNumber, cards[k].pciBusNumber);
    } else if k < j {
      CanonicalNameInjective(cards[k].pciBusNumber, cards[j].pciBusNumber);
    }
  }

  /** What is published under a name is the card of that name, when no two cards share an index. */
  lemma PublishedNamesCard(prepared: Ledger, cards: seq<CardInfo>, vdevs: map<int, int>, name: string)
    requires forall j, k | 0 <= j < k < |cards| :: cards[j].dvInd != cards[k].dvInd
    requires name in Published(Report(cards, vdevs), ParentNames(prepared))
    ensures NamesCard(name, cards, Published(Report(cards, vdevs), ParentNames(prepared))[name].dvInd)
  {
    var infos, parents := Report(cards, vdevs), ParentNames(prepared);
    PublishedIff(infos, parents, name);
    var k :| Source(infos, parents, name, k) &&
      Some(Published(infos, parents)[name]) == NewAllocatableDevice(infos[k].card);
    assert infos[k].card == cards[k];
    OnlyThatCard(cards, k, name);
  }

  lemma OnlyThatCard(cards: seq<CardInfo>, k: nat, name: string)
    requires forall i, j | 0 <= i < j < |cards| :: cards[i].dvInd != cards[j].dvInd
    requires k < |cards| && CanonicalName(cards[k].pciBusNumber) == name
    ensures NamesCard(name, cards, cards[k].dvInd)
  {
  }

  /** A reported card that the ledger names is published whatever vHCUs it has. */
  lemma NamedCardIsPublished(prepared: Ledger, cards: seq<CardInfo>, vdevs: map<int, int>, name: string)
    requires name in ParentNames(prepared) && IsCardName(cards, name)
    ensures var r := Published(Report(cards, vdevs), ParentNames(prepared));
            name in r && exists k ::
              0 <= k < |cards| && Some(r[name]) == NewAllocatableDevice(cards[k]) &&
                CanonicalName(cards[k].pciBusNumber) == name
  {
    var infos, parents := Report(cards, vdevs), ParentNames(prepared);
    var k :| 0 <= k < |cards| && cards[k].pciBusNumber != "" && CanonicalName(cards[k].pciBusNumber) == name;
    PublishedIff(infos, parents, name);
    assert Source(infos, parents, name, k);
    var j :| Source(infos, parents, name, j) &&
      Some(Published(infos, parents)[name]) == NewAllocatableDevice(infos[j].card);
    assert infos[j].card == cards[j];
  }

  lemma SomeElement<T>(s: set<T>) returns (x: T)
    requires |s| != 0
    ensures x in s
  {
    x :| x in s;
  }

  /** A card with vHCUs and a name of its own is withheld exactly when no ledger entry names it. */
  lemma WithheldCard(prepared: Ledger, cards: seq<CardInfo>, vdevs: map<int, int>, k: nat, i: int)
    requires k < |cards| && cards[k].pciBusNumber != "" && i in vdevs && vdevs[i] == cards[k].dvInd
    requires forall j | 0 <= j < |cards| && j != k ::
      CanonicalName(cards[j].pciBusNumber) != CanonicalName(cards[k].pciBusNumber)
    ensures var name := CanonicalName(cards[k].pciBusNumber);
            name !in Published(Report(cards, vdevs), ParentNames(prepared)) <==> name !in ParentNames(prepared)
  {
    var infos, parents, name := Report(cards, vdevs), ParentNames(prepared), CanonicalName(cards[k].pciBusNumber);
    PublishedIff(infos, parents, name);
    assert i in On(vdevs, cards[k].dvInd);
    assert infos[k].vDeviceCount != 0;
    assert forall j :: Source(infos, parents, name, j) ==> j == k;
    assert name in parents ==> Source(infos, parents, name, k);
  }
}
