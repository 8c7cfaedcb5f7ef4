/** Physical cards as the driver publishes them. */
module Allocatable {
  import opened Names
  import opened Dcgm
  import opened StateFile
  import Capacity

  datatype AllocatableDevice = AllocatableDevice(
    name: string, dvInd: int, pciBusNumber: string, uuid: string, capacity: Capacity.Card)

  /** canonicalNameFromPCI */
  function CanonicalName(pci: string): string { "hcu-" + Canonical(pci) }

  function Replaced(c: char): string {
    if c == ' ' then "" else if c == ':' || c == '.' then "-" else [c]
  }

  function Canonical(s: string): string {
    if s == "" then ""
    else Replaced(s[0]) + Canonical(s[1..])
  }

  /** Addresses of one shape: separators at the same places, and neither blanks nor dashes. */
  predicate SameShape(a: string, b: string) {
    && |a| == |b| && (forall i | 0 <= i < |a| :: a[i] !in {' ', '-'} && b[i] !in {' ', '-'})
    && forall i | 0 <= i < |a| :: (a[i] == ':' <==> b[i] == ':') && (a[i] == '.' <==> b[i] == '.')
  }

  /** Different addresses of one shape give different names. */
  lemma {:induction false} CanonicalInjective(a: string, b: string)
    requires SameShape(a, b) && Canonical(a) == Canonical(b)
    ensures a == b
  {
    if a != "" {
      assert Canonical(a)[1..] == Canonical(a[1..]) && Canonical(b)[1..] == Canonical(b[1..]);
      assert a[0] == b[0];
      CanonicalInjective(a[1..], b[1..]);
      assert a == [a[0]] + a[1..] && b == [b[0]] + b[1..];
    }
  }

  lemma CanonicalNameInjective(a: string, b: string)
    requires SameShape(a, b) && CanonicalName(a) == CanonicalName(b)
    ensures a == b
  {
    assert CanonicalName(a)[4..] == Canonical(a) && CanonicalName(b)[4..] == Canonical(b);
    CanonicalInjective(a, b);
  }

  predicate IsSpace(c: char) { c == ' ' || c == '\t' || c == '\n' || c == '\r' }

  function TrimSpace(s: string): string {
    if s != "" && IsSpace(s[0]) then TrimSpace(s[1..])
    else if s != "" && IsSpace(s[|s| - 1]) then TrimSpace(s[..|s| - 1])
    else s
  }

  function Sanitized(s: string): string {
    if s == "" then ""
    else (if s[0] == ':' || s[0] == '/' then "-" else if s[0] == ' ' then "_" else [s[0]]) + Sanitized(s[1..])
  }

  /** physicalCDIDeviceName */
  function PhysicalCDIDeviceName(alloc: AllocatableDevice): string {
    if alloc.uuid != "" then "HCU-" + Sanitized(TrimSpace(alloc.uuid)) else alloc.name
  }

  predicate AllSpace(s: string) { forall i | 0 <= i < |s| :: IsSpace(s[i]) }

  /** No blank at either end. */
  predicate Trimmed(s: string) { s != "" ==> !IsSpace(s[0]) && !IsSpace(s[|s| - 1]) }

  lemma {:induction false} TrimsBlanks(s: string)
    requires AllSpace(s)
    ensures TrimSpace(s) == ""
  {
    if s != "" {
      TrimsBlanks(s[1..]);
    }
  }

  lemma {:induction false} TrimsRight(s: string, right: string)
    requires s != "" && Trimmed(s) && AllSpace(right)
    ensures TrimSpace(s + right) == s
    decreases |right|
  {
    var all := s + right;
    assert all[0] == s[0];
    if right == "" {
      assert all == s;
    } else {
      var n := |right| - 1;
      assert all[|all| - 1] == right[n] && all[..|all| - 1] == s + right[..n];
      TrimsRight(s, right[..n]);
    }
  }

  /** Trimming takes away just the blanks around what is trimmed already. */
  lemma {:induction false} TrimsBoth(left: string, s: string, right: string)
    requires AllSpace(left) && Trimmed(s) && AllSpace(right)
    ensures TrimSpace(left + s + right) == s
    decreases |left|
  {
    var all := left + s + right;
    if s == "" {
      TrimsBlanks(all);
    } else if left == "" {
      assert all == s + right;
      TrimsRight(s, right);
    } else {
      assert all[0] == left[0] && all[1..] == left[1..] + s + right;
      TrimsBoth(left[1..], s, right);
    }
  }

  /**
   A sanitized name has no colon, slash or blank: a dash stands for a colon or a slash, an underscore for a
   blank, and all else is as it was.
   */
  lemma {:induction false} SanitizedIsSafe(s: string)
    ensures forall c | c in Sanitized(s) :: c !in {':', '/', ' '}
    ensures |Sanitized(s)| == |s|
    ensures forall i | 0 <= i < |s| && i < |Sanitized(s)| ::
      Sanitized(s)[i] == if s[i] in {':', '/'} then '-' else if s[i] == ' ' then '_' else s[i]
    ensures (forall c | c in s :: c !in {':', '/', ' '}) ==> Sanitized(s) == s
  {
    if s != "" {
      SanitizedIsSafe(s[1..]);
      assert s == [s[0]] + s[1..] && s[0] in s && forall c | c in s[1..] :: c in s;
    }
  }

  /** A UUID that can be a CDI device name as it is. */
  predicate SafeUuid(uuid: string) {
    (forall c | c in uuid :: c !in {':', '/', ' '}) && Trimmed(uuid)
  }

  /** A card with a UUID is known to CDI by it, wherever it sits; one without is known by its address. */
  lemma CdiNameOfCard(alloc: AllocatableDevice)
    requires SafeUuid(alloc.uuid)
    ensures PhysicalCDIDeviceName(alloc) == if alloc.uuid == "" then alloc.name else "HCU-" + alloc.uuid
  {
    SanitizedIsSafe(alloc.uuid);
  }

  /** Blanks around a UUID do not change the CDI name. */
  lemma BlanksDoNotMatter(alloc: AllocatableDevice, left: string, uuid: string, right: string)
    requires alloc.uuid == left + uuid + right && AllSpace(left) && AllSpace(right) && uuid != "" && SafeUuid(uuid)
    ensures PhysicalCDIDeviceName(alloc) == "HCU-" + uuid
  {
    TrimsBoth(left, uuid, right);
    SanitizedIsSafe(uuid);
  }

  /** So different cards have different CDI names. */
  lemma CdiNamesDiffer(a: AllocatableDevice, b: AllocatableDevice)
    requires SafeUuid(a.uuid) && SafeUuid(b.uuid) && a.name != b.name && (a.uuid == b.uuid ==> a.uuid == "")
    requires exists pci :: a.name == CanonicalName(pci)
    requires exists pci :: b.name == CanonicalName(pci)
    ensures PhysicalCDIDeviceName(a) != PhysicalCDIDeviceName(b)
  {
    CdiNameOfCard(a);
    CdiNameOfCard(b);
    assert a.name[0] == 'h' && b.name[0] == 'h';
    assert ("HCU-" + a.uuid)[4..] == a.uuid && ("HCU-" + b.uuid)[4..] == b.uuid;
    assert ("HCU-" + a.uuid)[0] == 'H' && ("HCU-" + b.uuid)[0] == 'H';
  }

  lemma {:induction false} CanonicalJoins(a: string, b: string)
    ensures Canonical(a + b) == Canonical(a) + Canonical(b)
  {
    if a == "" {
      assert a + b == b;
    } else {
      var ab := a + b;
      assert ab[0] == a[0] && ab[1..] == a[1..] + b;
      CanonicalJoins(a[1..], b);
      Joined(Replaced(a[0]), Canonical(a[1..]), Canonical(b));
    }
  }

  predicate Plain(s: string) { forall i | 0 <= i < |s| :: s[i] !in {':', '.', ' '} }

  lemma {:induction false} PlainIsCanonical(s: string)
    requires Plain(s)
    ensures Canonical(s) == s
  {
    if s != "" {
      PlainIsCanonical(s[1..]);
      assert s == [s[0]] + s[1..];
    }
  }

  /** The parts of an address are all in the name, joined by dashes. */
  lemma NameOfAddress(domain: string, bus: string, device: string, function_: string)
    requires Plain(domain) && Plain(bus) && Plain(device) && Plain(function_)
    ensures CanonicalName(domain + ":" + (bus + ":" + (device + "." + function_))) ==
      "hcu-" + (domain + "-" + (bus + "-" + (device + "-" + function_)))
  {
    PlainIsCanonical(domain);
    PlainIsCanonical(bus);
    PlainIsCanonical(device);
    PlainIsCanonical(function_);
    assert Canonical(":") == "-" && Canonical(".") == "-";
    CanonicalJoins(device + ".", function_);
    CanonicalJoins(device, ".");
    CanonicalJoins(bus + ":", device + "." + function_);
    CanonicalJoins(bus, ":");
    CanonicalJoins(domain + ":", bus + ":" + (device + "." + function_));
    CanonicalJoins(domain, ":");
  }

  /** newAllocatableDevice: a card without a PCI address is refused. */
  function NewAllocatableDevice(card: CardInfo): (r: Option<AllocatableDevice>) {
    if card.pciBusNumber == "" then None
    else Some(AllocatableDevice(CanonicalName(card.pciBusNumber), card.dvInd, card.pciBusNumber, card.deviceId,
      Capacity.Card(card.computeUnits, card.memoryBytes)))
  }
}
