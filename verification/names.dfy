/** The names under which vHCUs, CDI devices, spec files and dynamic marks are known outside the driver. */
module Names {
  import opened Text

  const STATE_NAME := "hcu-dra-driver-prepared-state.state"
  const TMP_NAME := "hcu-dra-driver-prepared-state.state.tmp"
  const FALLBACK_CONTAINER := "dra"

  /** dynamicMarkFileName */
  function MarkName(podUID: string, containerName: string, dvInd: int, vdevIdx: int): string {
    podUID + "_" + containerName + "_" + Decimal(dvInd) + "_" + Decimal(vdevIdx)
  }

  /** dynamicMarkVDevIndex: a whole card is marked with -1. */
  function MarkIndex(wholeCard: bool, vdvInd: int): int {
    if wholeCard then -1 else vdvInd
  }

  /** vdeviceCDIName */
  function VDeviceName(vdvInd: int): string { "vdev" + Decimal(vdvInd) }

  /** A fully qualified CDI device: kind=name, where a kind is vendor/class. */
  function QualifiedName(kind: string, name: string): string { kind + "=" + name }

  /** The names the driver uses under the CDI root. */
  datatype Layout = Layout(
    vendor: string, prefix: string, spec: string, json: string,
    base: string, legacyBase: string, legacyAggregate: string, state: string, tmp: string)
  {
    function CardKind(): string { vendor + "/hcu" }

    function VDeviceKind(): string { vendor + "/vhcu" }

    /** The file of one vHCU. */
    function SpecName(cdiName: string): string { prefix + cdiName + spec }

    /** Files the vHCU sync owns. */
    predicate IsSpec(name: string) {
      HasPrefix(name, prefix) && !HasSuffix(name, json) && HasSuffix(name, spec)
    }

    predicate IsLegacy(name: string) {
      (HasPrefix(name, prefix) && HasSuffix(name, json)) || name == legacyBase || name == legacyAggregate
    }

    /** The name left after trimming prefix and suffix. */
    function CdiNameOf(name: string): string {
      if |name| >= |prefix| + |spec| then name[|prefix|..|name| - |spec|] else ""
    }

    /** The files are told apart by their names, and a vHCU's name can be read off its file. */
    ghost predicate Ok() {
      && (forall n | IsSpec(n) :: SpecName(CdiNameOf(n)) == n)
      && (forall c :: IsSpec(SpecName(c)) && CdiNameOf(SpecName(c)) == c)
      && (forall n | n in {base, state, tmp} :: !IsSpec(n) && !IsLegacy(n))
      && !IsSpec(legacyBase) && !IsSpec(legacyAggregate)
      && base != state && base != tmp && state != tmp
    }
  }

  const HYGON := Layout(
    "dra.hygon.com", "hcu-dra-driver-vdevice-", ".yaml", ".json",
    "hcu-dra-driver-device.yaml", "hcu-dra-driver-device.json", "hcu-dra-driver-vdevice.json",
    STATE_NAME, TMP_NAME)

  /** A prefix without the suffix's first character does not overlap it, so the name comes apart into three. */
  lemma ThreeParts(n: string, prefix: string, suffix: string)
    requires HasPrefix(n, prefix) && HasSuffix(n, suffix) && suffix != "" && suffix[0] !in prefix
    ensures |n| >= |prefix| + |suffix|
    ensures n == prefix + n[|prefix|..|n| - |suffix|] + suffix
  {
  }

  lemma SpecNameRoundTrip(n: string)
    requires HYGON.IsSpec(n)
    ensures HYGON.SpecName(HYGON.CdiNameOf(n)) == n
  {
    assert HYGON.spec[0] == '.';
    ThreeParts(n, HYGON.prefix, HYGON.spec);
  }

  lemma SpecNameIsSpec(c: string)
    ensures HYGON.IsSpec(HYGON.SpecName(c)) && HYGON.CdiNameOf(HYGON.SpecName(c)) == c
  {
  }

  /** No other name of the driver's could be taken for a vHCU spec or a prefixed legacy file. */
  lemma HygonPrefixIsOwn()
    ensures !HasPrefix(HYGON.base, HYGON.prefix) && !HasPrefix(HYGON.state, HYGON.prefix)
    ensures !HasPrefix(HYGON.tmp, HYGON.prefix)
    ensures !HasPrefix(HYGON.legacyBase, HYGON.prefix) && !HasPrefix(HYGON.legacyAggregate, HYGON.prefix)
  {
    assert HYGON.prefix[15] == 'v' && HYGON.base[15] == 'd' && HYGON.state[15] == 'p' && HYGON.tmp[15] == 'p';
    assert HYGON.prefix[22] == '-' && HYGON.legacyBase[15] == 'd' && HYGON.legacyAggregate[22] == '.';
  }

  lemma HygonNamesDiffer()
    ensures HYGON.base != HYGON.state && HYGON.base != HYGON.tmp && HYGON.state != HYGON.tmp
    ensures HYGON.legacyBase !in {HYGON.base, HYGON.state, HYGON.tmp}
    ensures HYGON.legacyAggregate !in {HYGON.base, HYGON.state, HYGON.tmp}
  {
    assert HYGON.base[15] == 'd' && HYGON.state[15] == 'p' && HYGON.tmp[15] == 'p' && |HYGON.state| < |HYGON.tmp|;
    assert HYGON.legacyBase[15] == 'd' && HYGON.legacyBase[22] == 'j' && HYGON.base[22] == 'y';
    assert HYGON.legacyAggregate[15] == 'v';
  }

  lemma Joined(a: string, b: string, c: string)
    ensures a + b + c == a + (b + c)
  {
  }

  lemma JoinedEnds(a: string, b: string)
    ensures HasPrefix(a + b, a) && HasSuffix(a + b, b)
  {
  }

  /** Card and vHCU index come last in a mark, in that order, after pod and container. */
  lemma MarkNameParts(pod: string, container: string, dvInd: int, vdevIdx: int)
    ensures HasPrefix(MarkName(pod, container, dvInd, vdevIdx), pod + "_" + container + "_")
    ensures HasSuffix(MarkName(pod, container, dvInd, vdevIdx), "_" + Decimal(dvInd) + "_" + Decimal(vdevIdx))
  {
    var head, card, vhcu := pod + "_" + container, Decimal(dvInd), Decimal(vdevIdx);
    Joined(head + "_" + card, "_", vhcu);
    Joined(head + "_", card, "_" + vhcu);
    JoinedEnds(head + "_", card + ("_" + vhcu));
    Joined(head, "_", card + ("_" + vhcu));
    Joined("_", card, "_" + vhcu);
    Joined("_" + card, "_", vhcu);
    JoinedEnds(head, "_" + card + "_" + vhcu);
  }

  /** A whole card is marked with -1 in place of a vHCU. */
  lemma WholeCardMark(pod: string, container: string, dvInd: int, vdvInd: int)
    ensures HasSuffix(MarkName(pod, container, dvInd, MarkIndex(true, vdvInd)), "_" + Decimal(dvInd) + "_-1")
  {
    MarkNameParts(pod, container, dvInd, -1);
    assert Natural(1) == "1" && Decimal(-1) == "-1";
    Joined("_" + Decimal(dvInd), "_", "-1");
    assert "_" + "-1" == "_-1";
  }

  lemma VhcuKind()
    ensures HYGON.VDeviceKind() == "dra.hygon.com/vhcu"
  {
  }

  lemma CardKind()
    ensures HYGON.CardKind() == "dra.hygon.com/hcu"
  {
  }

  lemma FirstVhcu()
    ensures VDeviceName(0) == "vdev0"
  {
    assert Decimal(0) == "0";
  }

  /** The driver's own names are well chosen. */
  lemma HygonLayoutIsOk()
    ensures HYGON.Ok()
  {
    forall n | HYGON.IsSpec(n) ensures HYGON.SpecName(HYGON.CdiNameOf(n)) == n {
      SpecNameRoundTrip(n);
    }
    forall c ensures HYGON.IsSpec(HYGON.SpecName(c)) && HYGON.CdiNameOf(HYGON.SpecName(c)) == c {
      SpecNameIsSpec(c);
    }
    HygonPrefixIsOwn();
    HygonNamesDiffer();
  }

  lemma VDeviceNameInjective(i: int, j: int)
    requires VDeviceName(i) == VDeviceName(j)
    ensures i == j
  {
    assert VDeviceName(i)[4..] == Decimal(i) && VDeviceName(j)[4..] == Decimal(j);
    DecimalInjective(i, j);
  }

  /** A mark names one card and one vHCU on it, whatever pod and container are called. */
  lemma MarkNameTail(podA: string, containerA: string, dvA: int, idxA: int, podB: string, containerB: string, dvB: int,
                     idxB: int)
    requires MarkName(podA, containerA, dvA, idxA) == MarkName(podB, containerB, dvB, idxB)
    ensures podA + "_" + containerA == podB + "_" + containerB && dvA == dvB && idxA == idxB
  {
    DecimalHasNoUnderscore(dvA);
    DecimalHasNoUnderscore(dvB);
    DecimalHasNoUnderscore(idxA);
    DecimalHasNoUnderscore(idxB);
    LastSeparator(podA + "_" + containerA + "_" + Decimal(dvA), Decimal(idxA),
      podB + "_" + containerB + "_" + Decimal(dvB), Decimal(idxB));
    LastSeparator(podA + "_" + containerA, Decimal(dvA), podB + "_" + containerB, Decimal(dvB));
    DecimalInjective(dvA, dvB);
    DecimalInjective(idxA, idxB);
  }

  /** A mark names one pod, container, card and vHCU, whatever the container is called. */
  lemma MarkNameInjective(podA: string, containerA: string, dvA: int, idxA: int, podB: string, containerB: string,
                          dvB: int, idxB: int)
    requires '_' !in podA && '_' !in podB
    requires MarkName(podA, containerA, dvA, idxA) == MarkName(podB, containerB, dvB, idxB)
    ensures podA == podB && containerA == containerB && dvA == dvB && idxA == idxB
  {
    MarkNameTail(podA, containerA, dvA, idxA, podB, containerB, dvB, idxB);
    FirstSeparator(podA, containerA, podB, containerB);
  }

  lemma Lead(pod: string, a: string, b: string, c: string)
    ensures pod + "_" + a + "_" + b + "_" + c == pod + "_" + (a + "_" + b + "_" + c)
  {
  }

  lemma PrefixSplits(s: string, prefix: string)
    requires HasPrefix(s, prefix)
    ensures s == prefix + s[|prefix|..]
  {
  }

  /** The sweep for a claim UID finds exactly the marks that lead with that UID. */
  lemma PrefixSelectsUid(uid: string, pod: string, container: string, dv: int, idx: int)
    requires '_' !in uid && '_' !in pod
    ensures HasPrefix(MarkName(pod, container, dv, idx), uid + "_") <==> pod == uid
  {
    var tail := container + "_" + Decimal(dv) + "_" + Decimal(idx);
    Lead(pod, container, Decimal(dv), Decimal(idx));
    LeadDecides(uid, pod, tail);
  }

  lemma LeadDecides(uid: string, pod: string, tail: string)
    requires '_' !in uid && '_' !in pod
    ensures HasPrefix(pod + "_" + tail, uid + "_") <==> pod == uid
  {
    var name := pod + "_" + tail;
    if HasPrefix(name, uid + "_") {
      PrefixSplits(name, uid + "_");
      FirstSeparator(pod, tail, uid, name[|uid + "_"|..]);
    }
  }
}
