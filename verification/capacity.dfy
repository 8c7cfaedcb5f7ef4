/** What a card advertises, what the scheduler admits under those policies, and what the driver carves. */
module Capacity {
  import opened StateFile

  const MIB := 1024 * 1024
  const FLOAT64_EXACT := 0x20_0000_0000_0000

  /** CapacityRequestPolicy of resource.k8s.io/v1 with a valid range, together with the capacity's value. */
  datatype Policy = Policy(value: int, default: int, min: int, max: int, step: int)

  /** The capacity part of an allocatable device. */
  datatype Card = Card(computeUnits: int, memoryBytes: int)

  /** The capacity part of a device request; absent means the user did not name that capacity. */
  datatype Request = Request(cores: Option<int>, memory: Option<int>, slices: Option<int>)

  datatype Allocation = Allocation(device: string, request: Request)

  /** The policies GetDevice advertises. */
  function CoresPolicy(card: Card): Policy { Policy(card.computeUnits, card.computeUnits, 0, card.computeUnits, 1) }
  function MemoryPolicy(card: Card): Policy { Policy(card.memoryBytes, card.memoryBytes, 0, card.memoryBytes, MIB) }
  function SlicesPolicy(split: int): Policy { Policy(split, 1, 1, split, 1) }

  /** What a request consumes: the default when absent, else rounded up to min plus a number of steps. */
  function Consumed(p: Policy, request: Option<int>): int
    requires p.step > 0
  {
    match request
    case None => p.default
    case Some(v) => if v < p.min then p.min else p.min + (v - p.min + p.step - 1) / p.step * p.step
  }

  predicate Valid(p: Policy, request: Option<int>)
    requires p.step > 0
  {
    request.Some? ==> Consumed(p, request) <= p.max
  }

  datatype Share = Share(cores: int, memory: int, slices: int)

  function ShareOf(card: Card, split: int, r: Request): Share {
    Share(Consumed(CoresPolicy(card), r.cores), Consumed(MemoryPolicy(card), r.memory),
      Consumed(SlicesPolicy(split), r.slices))
  }

  function Plus(a: Share, b: Share): Share { Share(a.cores + b.cores, a.memory + b.memory, a.slices + b.slices) }

  /** What all allocations on one device consume together. */
  function Used(allocs: seq<Allocation>, device: string, card: Card, split: int): Share {
    if allocs == [] then Share(0, 0, 0)
    else
      var rest := Used(allocs[1..], device, card, split);
      if allocs[0].device == device then Plus(ShareOf(card, split, allocs[0].request), rest) else rest
  }

  predicate ValidRequest(card: Card, split: int, r: Request) {
    && Valid(CoresPolicy(card), r.cores) && Valid(MemoryPolicy(card), r.memory) && Valid(SlicesPolicy(split), r.slices)
  }

  /** The scheduler's rule for consumable capacity on one device. */
  predicate Admitted(allocs: seq<Allocation>, device: string, card: Card, split: int) {
    AllValid(allocs, device, card, split) && Within(Used(allocs, device, card, split), card, split)
  }

  predicate AllValid(allocs: seq<Allocation>, device: string, card: Card, split: int) {
    forall a | a in allocs && a.device == device :: ValidRequest(card, split, a.request)
  }

  predicate Within(used: Share, card: Card, split: int) {
    used.cores <= card.computeUnits && used.memory <= card.memoryBytes && used.slices <= split
  }

  /** What the driver makes of one request. */
  datatype Carving = NotFound | WholeCard | Carve(cores: int, memMiB: int)

  /** The spacing of the float64 values around n. */
  function Ulp(n: nat): (ulp: nat)
    ensures ulp >= 1
  {
    if n < FLOAT64_EXACT then 1 else 2 * Ulp(n / 2)
  }

  /** int to float64 and back: the nearest representable value, ties to even. */
  function ViaFloat64(n: int): int {
    if n < 0 then -NearestFloat64(-n) else NearestFloat64(n)
  }

  function NearestFloat64(n: nat): int {
    if n <= FLOAT64_EXACT then n else Rounded(n, Ulp(n)) * Ulp(n)
  }

  /** The quotient, rounded to nearest, ties to even. */
  function Rounded(n: nat, ulp: nat): nat
    requires ulp >= 1
  {
    var q, r := n / ulp, n % ulp;
    if 2 * r < ulp || (2 * r == ulp && q % 2 == 0) then q else q + 1
  }

  /** Go's integer division, which truncates. */
  function Quotient(n: int, d: nat): int
    requires d > 0
  {
    if n >= 0 then n / d else -((-n) / d)
  }

  function AtLeastOne(n: int): int { if n < 1 then 1 else n }

  predicate IsWholeCard(r: Request) { r.cores.None? && r.memory.None? }

  /** The body of requestCapacityFor once the request is found. */
  function CarvingOf(card: Card, r: Request): Carving {
    if IsWholeCard(r) then WholeCard
    else
      var cores := if r.cores.Some? then AtLeastOne(ViaFloat64(r.cores.value)) else card.computeUnits;
      var memMiB := if r.memory.Some? then AtLeastOne(ViaFloat64(Quotient(r.memory.value, MIB)))
        else Quotient(card.memoryBytes, MIB);
      Carve(AtLeastOne(cores), AtLeastOne(memMiB))
  }

  /** A request of a claim's spec; `exactly` is None for a request of another shape. */
  datatype ClaimRequest = ClaimRequest(name: string, exactly: Option<Request>)

  /** The k-th request is the first of that name, and one that asks for an exact device. */
  ghost predicate Decides(requests: seq<ClaimRequest>, requestName: string, k: int) {
    && 0 <= k < |requests| && requests[k].name == requestName && requests[k].exactly.Some?
    && forall j | 0 <= j < k :: requests[j].name != requestName
  }

  /** The request of that name, if it asks for an exact device. */
  ghost function RequestNamed(requests: seq<ClaimRequest>, requestName: string): Request {
    if exists k :: Decides(requests, requestName, k)
    then (var k :| Decides(requests, requestName, k); requests[k].exactly.value)
    else Request(None, None, None)
  }

  /** What a claim's requests make of an allocation result for that request. */
  ghost function CarvingFor(requests: seq<ClaimRequest>, requestName: string, card: Card): Carving {
    if exists k :: Decides(requests, requestName, k) then CarvingOf(card, RequestNamed(requests, requestName))
      else NotFound
  }

  /** requestCapacityFor: the first request of that name decides. */
  method RequestCapacityFor(requests: seq<ClaimRequest>, requestName: string, card: Card) returns (r: Carving)
    ensures r.NotFound? <==> !exists k :: Decides(requests, requestName, k)
    ensures forall k | Decides(requests, requestName, k) :: r == CarvingOf(card, requests[k].exactly.value)
    ensures r == CarvingFor(requests, requestName, card)
  {
    var k := 0;
    while k < |requests| && requests[k].name != requestName
      invariant 0 <= k <= |requests|
      invariant forall j | 0 <= j < k :: requests[j].name != requestName
    {
      k := k + 1;
    }
    if k == |requests| || requests[k].exactly.None? {
      return NotFound;
    }
    assert Decides(requests, requestName, k);
    return CarvingOf(card, requests[k].exactly.value);
  }

  lemma Halved(n: nat, d: nat)
    requires d >= 1
    ensures n / 2 / d == n / (2 * d)
  {
    var q, r := n / 2 / d, n / 2 % d;
    assert n == 2 * (q * d + r) + n % 2;
    assert 2 * (q * d) == q * (2 * d);
    QuotientIs(n, 2 * d, q, 2 * r + n % 2);
  }

  lemma Distribute(a: int, b: int, d: int)
    ensures (a - b) * d == a * d - b * d
  {
  }

  lemma AtLeast(x: int, k: int, d: nat)
    requires x >= k
    ensures x * d >= k * d
  {
    Distribute(x, k, d);
    assert (x - k) * d >= 0;
  }

  lemma QuotientIs(n: nat, d: nat, q: nat, r: nat)
    requires n == q * d + r && r < d
    ensures n / d == q
  {
    var e, m := n / d, n % d;
    assert n == e * d + m && 0 <= m < d;
    Distribute(e, q, d);
    if e > q {
      AtLeast(e - q, 1, d);
    } else if e < q {
      Distribute(q, e, d);
      AtLeast(q - e, 1, d);
    }
  }

  /** Between 53 bits and the spacing there is nothing: a float64 has 53 significant bits. */
  lemma {:induction false} UlpIsSpacing(n: nat)
    requires n >= FLOAT64_EXACT
    ensures FLOAT64_EXACT / 2 <= n / Ulp(n) < FLOAT64_EXACT
  {
    Halved(n, Ulp(n / 2));
    if n / 2 >= FLOAT64_EXACT {
      UlpIsSpacing(n / 2);
    }
  }

  lemma Multiples(ulp: nat, q: int, m: int)
    ensures m <= q ==> m * ulp <= q * ulp
    ensures m > q ==> m * ulp >= q * ulp + ulp
    ensures (q + 1) * ulp == q * ulp + ulp
  {
    Distribute(q + 1, q, ulp);
    if m <= q {
      AtLeast(q, m, ulp);
    } else {
      AtLeast(m, q + 1, ulp);
    }
  }

  lemma Neighbours(n: nat, ulp: nat, q: int, down: int, other: int)
    requires ulp >= 1 && down <= n < down + ulp && (other <= down || other >= down + ulp)
    ensures 2 * (n - down) <= ulp ==> Distance(down, n) <= Distance(other, n)
    ensures 2 * (n - down) >= ulp ==> Distance(down + ulp, n) <= Distance(other, n)
    ensures Distance(down, n) == Distance(other, n) ==> other == down || 2 * (n - down) >= ulp || n == down
    ensures Distance(down + ulp, n) == Distance(other, n) ==> other == down + ulp || 2 * (n - down) <= ulp
  {
  }

  /** No other multiple is nearer than the rounded one, and of two that are as near it is even. */
  lemma RoundedIsNearest(n: nat, ulp: nat, m: int)
    requires ulp >= 1
    ensures var v := Rounded(n, ulp);
            && Distance(v * ulp, n) <= Distance(m * ulp, n)
            && (Distance(v * ulp, n) == Distance(m * ulp, n) ==> m == v || v % 2 == 0)
  {
    var q := n / ulp;
    assert n == q * ulp + n % ulp && 0 <= n % ulp < ulp;
    Multiples(ulp, q, m);
    Multiples(ulp, m, q);
    Neighbours(n, ulp, q, q * ulp, m * ulp);
  }

  /** The conversion goes to a multiple of the spacing than which no other is nearer. */
  lemma NearestIsNearest(n: nat, m: int)
    ensures var ulp, v := Ulp(n), NearestFloat64(n);
            (exists k :: v == k * ulp) && Distance(v, n) <= Distance(m * ulp, n)
  {
    if n > FLOAT64_EXACT {
      RoundedIsNearest(n, Ulp(n), m);
      assert NearestFloat64(n) == Rounded(n, Ulp(n)) * Ulp(n);
    } else if n == FLOAT64_EXACT {
      assert Ulp(n) == 2 * Ulp(n / 2) == 2;
      assert n == n / 2 * Ulp(n);
    } else {
      assert n == n * Ulp(n);
    }
  }

  function Distance(a: int, b: int): int { if a < b then b - a else a - b }

  lemma Multiple(q: nat, d: nat)
    requires d >= 1
    ensures q * d % d == 0 && q * d / d == q
  {
    QuotientIs(q * d, d, q, 0);
  }

  lemma FloatIsExact(n: int)
    requires -FLOAT64_EXACT <= n <= FLOAT64_EXACT
    ensures ViaFloat64(n) == n
  {
  }

  /** A card that can be carved at all, within the exact range of float64. */
  predicate Carvable(card: Card) {
    1 <= card.computeUnits <= FLOAT64_EXACT && MIB <= card.memoryBytes < MIB * FLOAT64_EXACT
  }

  /** A valid request is carved within what it consumes exactly when it asks for at least one of whatever it names. */
  lemma CarvedWithinConsumed(card: Card, split: int, r: Request)
    requires Carvable(card) && ValidRequest(card, split, r) && !IsWholeCard(r)
    ensures var c, used := CarvingOf(card, r), ShareOf(card, split, r);
            && (c.cores <= used.cores <==> (r.cores.Some? ==> r.cores.value >= 1))
            && (c.memMiB * MIB <= used.memory <==> (r.memory.Some? ==> r.memory.value >= 1))
            && used.slices >= 1
  {
  }

  /** What the scheduler counts: cores as named, memory rounded up to MiB, at least one slice; the default otherwise. */
  lemma SharesAreRoundedUp(card: Card, split: int, r: Request)
    ensures var used := ShareOf(card, split, r);
            && (r.cores.None? ==> used.cores == card.computeUnits)
            && (r.cores.Some? ==> used.cores == if r.cores.value < 0 then 0 else r.cores.value)
            && (r.memory.None? ==> used.memory == card.memoryBytes)
            && (r.memory.Some? ==> used.memory % MIB == 0 && used.memory >= 0)
            && (r.memory.Some? ==>
                used.memory - MIB < r.memory.value <= used.memory || used.memory == 0 > r.memory.value)
            && (r.slices.None? ==> used.slices == 1)
            && (r.slices.Some? ==> used.slices == if r.slices.value < 1 then 1 else r.slices.value)
  {
  }

  /** A vHCU of that size is what a request asks for: the cores it names, or all; its memory, or all, in whole MiB. */
  predicate AsAsked(card: Card, r: Request, cores: int, memMiB: int) {
    && (r.cores.Some? ==> cores == r.cores.value) && (r.cores.None? ==> cores == card.computeUnits)
    && memMiB >= 1
    && (r.memory.Some? ==> WholeMiBOf(r.memory.value, memMiB))
    && (r.memory.None? ==> WholeMiBOf(card.memoryBytes, memMiB))
  }

  /** So many MiB are in that many bytes, or one if there is none. */
  predicate WholeMiBOf(bytes: int, memMiB: int) {
    bytes < (memMiB + 1) * MIB && (bytes >= MIB ==> memMiB * MIB <= bytes) && (bytes < MIB ==> memMiB == 1)
  }

  /** A request that names neither cores nor memory gets the whole card, and any other the vHCU that it asks for. */
  lemma CarvingIsAsked(card: Card, split: int, r: Request)
    requires Carvable(card) && ValidRequest(card, split, r) && Positive(r)
    ensures r.cores.None? && r.memory.None? ==> CarvingOf(card, r) == WholeCard
    ensures r.cores.Some? || r.memory.Some? ==>
      var c := CarvingOf(card, r);
      c.Carve? && AsAsked(card, r, c.cores, c.memMiB) && c.cores == ShareOf(card, split, r).cores
  {
    if r.cores.Some? {
      FloatIsExact(r.cores.value);
    }
    if r.memory.Some? {
      FloatIsExact(Quotient(r.memory.value, MIB));
    }
  }

  /** The request that decides is found by its name. */
  lemma DecidingRequest(requests: seq<ClaimRequest>, requestName: string, card: Card, k: nat)
    requires Decides(requests, requestName, k)
    ensures CarvingFor(requests, requestName, card) == CarvingOf(card, requests[k].exactly.value)
    ensures RequestNamed(requests, requestName) == requests[k].exactly.value
  {
    forall j | Decides(requests, requestName, j) ensures j == k {
      DecidesOnce(requests, requestName, j, k);
    }
  }

  lemma DecidesOnce(requests: seq<ClaimRequest>, requestName: string, j: int, k: int)
    requires Decides(requests, requestName, j) && Decides(requests, requestName, k)
    ensures j == k
  {
    assert requests[j].name == requestName && requests[k].name == requestName;
  }

  /** Cores, memory in MiB and number of the vHCUs the driver carves for one request. */
  function CarvedOf(card: Card, r: Request): Share {
    var c := CarvingOf(card, r);
    if c.Carve? then Share(c.cores, c.memMiB, 1) else Share(0, 0, 0)
  }

  /** The same for all requests on one device. */
  function Carved(allocs: seq<Allocation>, device: string, card: Card): Share {
    if allocs == [] then Share(0, 0, 0)
    else
      var rest := Carved(allocs[1..], device, card);
      if allocs[0].device == device then Plus(CarvedOf(card, allocs[0].request), rest) else rest
  }

  /** Whoever names a capacity asks for at least one unit of it. */
  predicate Positive(r: Request) {
    (r.cores.Some? ==> r.cores.value >= 1) && (r.memory.Some? ==> r.memory.value >= 1)
  }

  lemma {:induction false} CarvedWithinUsed(allocs: seq<Allocation>, device: string, card: Card, split: int)
    requires Carvable(card)
    requires forall a | a in allocs && a.device == device :: ValidRequest(card, split, a.request) && Positive(a.request)
    ensures Fits(Carved(allocs, device, card), Used(allocs, device, card, split))
  {
    if allocs != [] {
      CarvedWithinUsed(allocs[1..], device, card, split);
      if allocs[0].device == device {
        OneWithinUsed(card, split, allocs[0].request);
        FitsPlus(CarvedOf(card, allocs[0].request), ShareOf(card, split, allocs[0].request),
          Carved(allocs[1..], device, card), Used(allocs[1..], device, card, split));
      }
    }
  }

  /** A carved share, its memory counted in MiB, lies within a consumed one. */
  predicate Fits(carved: Share, used: Share) {
    carved.cores <= used.cores && carved.memory * MIB <= used.memory && carved.slices <= used.slices
  }

  lemma FitsPlus(c: Share, u: Share, c': Share, u': Share)
    requires Fits(c, u) && Fits(c', u')
    ensures Fits(Plus(c, c'), Plus(u, u'))
  {
  }

  lemma OneWithinUsed(card: Card, split: int, r: Request)
    requires Carvable(card) && ValidRequest(card, split, r) && Positive(r)
    ensures var used := ShareOf(card, split, r);
            Fits(CarvedOf(card, r), used)
  {
  }

  /**
   Carve-up conservation: whatever the scheduler admits on a card, the vHCUs carved there fit into its cores, its memory
   and its split count, although memory is floored and missing values are filled in with the whole card's.
   */
  lemma CarveUpConserves(allocs: seq<Allocation>, device: string, card: Card, split: int)
    requires Carvable(card) && Admitted(allocs, device, card, split)
    requires forall a | a in allocs && a.device == device :: Positive(a.request)
    ensures var carved := Carved(allocs, device, card);
            carved.cores <= card.computeUnits && carved.memory * MIB <= card.memoryBytes && carved.slices <= split
  {
    CarvedWithinUsed(allocs, device, card, split);
  }

  lemma PlusNothing(a: Share)
    ensures Plus(a, Share(0, 0, 0)) == a
  {
  }

  /** What the first allocation adds. */
  lemma FirstCounts(allocs: seq<Allocation>, device: string, card: Card, split: int)
    requires allocs != [] && allocs[0].device == device
    ensures Used(allocs, device, card, split) ==
      Plus(ShareOf(card, split, allocs[0].request), Used(allocs[1..], device, card, split))
    ensures Carved(allocs, device, card) == Plus(CarvedOf(card, allocs[0].request), Carved(allocs[1..], device, card))
  {
  }

  lemma OneOnDevice(r: Request, device: string, card: Card, split: int)
    ensures Used([Allocation(device, r)], device, card, split) == ShareOf(card, split, r)
    ensures Carved([Allocation(device, r)], device, card) == CarvedOf(card, r)
  {
    var one := [Allocation(device, r)];
    FirstCounts(one, device, card, split);
    assert one[1..] == [];
    PlusNothing(ShareOf(card, split, r));
    PlusNothing(CarvedOf(card, r));
  }

  lemma TwoOnDevice(r: Request, r': Request, device: string, card: Card, split: int)
    ensures var allocs := [Allocation(device, r), Allocation(device, r')];
            && Used(allocs, device, card, split) == Plus(ShareOf(card, split, r), ShareOf(card, split, r'))
            && Carved(allocs, device, card) == Plus(CarvedOf(card, r), CarvedOf(card, r'))
  {
    var both := [Allocation(device, r), Allocation(device, r')];
    FirstCounts(both, device, card, split);
    assert both[1..] == [Allocation(device, r')];
    OneOnDevice(r', device, card, split);
  }

  /** The two requests are admitted together on the card, and their vHCUs do not fit there. */
  ghost predicate Overcommits(card: Card, split: int, r: Request, r': Request) {
    var allocs := [Allocation("", r), Allocation("", r')];
    Admitted(allocs, "", card, split) && Exceeds(Carved(allocs, "", card), card)
  }

  predicate Exceeds(carved: Share, card: Card) {
    carved.cores > card.computeUnits || carved.memory * MIB > card.memoryBytes
  }

  lemma NearestIsNonnegative(n: nat)
    ensures NearestFloat64(n) >= 0
  {
    var ulp := Ulp(n);
    assert n / ulp >= 0;
  }

  /** What a request for no unit consumes, and what is carved for it. */
  lemma BelowOneIsCarved(card: Card, split: int, r: Request)
    requires Carvable(card)
    ensures r.cores.Some? && r.cores.value <= 0 ==>
      ShareOf(card, split, r).cores == 0 && CarvedOf(card, r).cores == 1
    ensures r.memory.Some? && r.memory.value <= 0 ==>
      ShareOf(card, split, r).memory == 0 && CarvedOf(card, r).memory == 1
  {
    if r.cores.Some? && r.cores.value <= 0 {
      NearestIsNonnegative(-r.cores.value);
    }
    if r.memory.Some? && r.memory.value <= 0 {
      NearestIsNonnegative(-Quotient(r.memory.value, MIB));
    }
  }

  /** A request that takes all cores, or all memory, and nothing of the other. */
  function Greedy(card: Card, cores: bool): Request {
    if cores then Request(Some(card.computeUnits), Some(0), None)
    else Request(Some(0), Some(card.memoryBytes / MIB * MIB), None)
  }

  /** What the greedy request takes and is carved. */
  function GreedyShare(card: Card, cores: bool): Share {
    if cores then Share(card.computeUnits, 0, 1) else Share(0, card.memoryBytes / MIB * MIB, 1)
  }

  function GreedyCarved(card: Card, cores: bool): Share {
    if cores then Share(card.computeUnits, 1, 1) else Share(1, card.memoryBytes / MIB, 1)
  }

  lemma WholeMiB(n: nat)
    ensures (n * MIB + MIB - 1) / MIB == n && n * MIB / MIB == n
  {
  }

  lemma GreedyTakesAll(card: Card, split: int, cores: bool)
    requires Carvable(card) && split >= 1
    ensures ValidRequest(card, split, Greedy(card, cores))
    ensures ShareOf(card, split, Greedy(card, cores)) == GreedyShare(card, cores)
  {
    WholeMiB(card.memoryBytes / MIB);
  }

  lemma GreedyIsCarved(card: Card, cores: bool)
    requires Carvable(card)
    ensures CarvedOf(card, Greedy(card, cores)) == GreedyCarved(card, cores)
  {
    var r, n := Greedy(card, cores), card.memoryBytes / MIB;
    WholeMiB(n);
    assert Quotient(n * MIB, MIB) == n && Quotient(0, MIB) == 0;
    FloatIsExact(0);
    FloatIsExact(if cores then card.computeUnits else n);
    assert CarvingOf(card, r).Carve?;
  }

  /** Two requests overcommit a card exactly by their shares. */
  lemma OvercommitsIff(card: Card, split: int, r: Request, r': Request)
    ensures Overcommits(card, split, r, r') <==>
      && ValidRequest(card, split, r) && ValidRequest(card, split, r')
      && Within(Plus(ShareOf(card, split, r), ShareOf(card, split, r')), card, split)
      && Exceeds(Plus(CarvedOf(card, r), CarvedOf(card, r')), card)
  {
    TwoOnDevice(r, r', "", card, split);
    BothValid(card, split, r, r');
  }

  lemma BothValid(card: Card, split: int, r: Request, r': Request)
    ensures AllValid([Allocation("", r), Allocation("", r')], "", card, split) <==>
      ValidRequest(card, split, r) && ValidRequest(card, split, r')
  {
    var allocs := [Allocation("", r), Allocation("", r')];
    assert allocs[0].request == r && allocs[1].request == r' && allocs[0] in allocs && allocs[1] in allocs;
  }

  lemma GreedyOvercommits(card: Card, split: int, r: Request, cores: bool)
    requires Carvable(card) && ValidRequest(card, split, r) && ShareOf(card, split, r).slices < split
    requires if cores then r.cores.Some? && r.cores.value <= 0 else r.memory.Some? && r.memory.value <= 0
    ensures Overcommits(card, split, r, Greedy(card, cores))
  {
    BelowOneIsCarved(card, split, r);
    GreedyTakesAll(card, split, cores);
    GreedyIsCarved(card, cores);
    ValidIsWithin(card, split, r);
    SharesOvercommit(card, split, ShareOf(card, split, r), CarvedOf(card, r), cores);
    OvercommitsIff(card, split, r, Greedy(card, cores));
  }

  lemma SharesOvercommit(card: Card, split: int, used: Share, carved: Share, cores: bool)
    requires Carvable(card) && Within(used, card, split) && used.slices < split
    requires if cores then used.cores == 0 && carved.cores == 1 else used.memory == 0 && carved.memory == 1
    ensures Within(Plus(used, GreedyShare(card, cores)), card, split)
    ensures Exceeds(Plus(carved, GreedyCarved(card, cores)), card)
  {
  }

  lemma ValidIsWithin(card: Card, split: int, r: Request)
    requires ValidRequest(card, split, r) && ShareOf(card, split, r).slices < split
    ensures Within(ShareOf(card, split, r), card, split)
  {
  }

  /**
   The converse of conservation: whoever names a capacity and asks for less than one unit of it can be admitted beside
   another request so that their vHCUs do not fit, exactly if it leaves a slice of the card.
   */
  lemma BelowOneOvercommits(card: Card, split: int, r: Request)
    requires Carvable(card) && ValidRequest(card, split, r) && !Positive(r)
    ensures (exists r' :: Overcommits(card, split, r, r')) <==> ShareOf(card, split, r).slices < split
  {
    if ShareOf(card, split, r).slices < split {
      GreedyOvercommits(card, split, r, r.cores.Some? && r.cores.value <= 0);
    } else {
      forall r' ensures !Overcommits(card, split, r, r') {
        OvercommitsIff(card, split, r, r');
        assert ShareOf(card, split, r').slices >= 1;
      }
    }
  }

  lemma {:induction false} UsedIsNonnegative(allocs: seq<Allocation>, device: string, card: Card, split: int)
    requires Carvable(card)
    ensures var used := Used(allocs, device, card, split); used.cores >= 0 && used.memory >= 0
  {
    if allocs != [] {
      UsedIsNonnegative(allocs[1..], device, card, split);
    }
  }

  /** Without one of them, the others consume no more. */
  lemma {:induction false} UsedWithout(allocs: seq<Allocation>, device: string, card: Card, split: int, j: nat)
    requires Carvable(card) && j < |allocs|
    ensures var used, rest := Used(allocs, device, card, split),
              Used(allocs[..j] + allocs[j + 1..], device, card, split);
            rest.cores <= used.cores && rest.memory <= used.memory && rest.slices <= used.slices
  {
    if j == 0 {
      assert allocs[..0] + allocs[1..] == allocs[1..];
    } else {
      UsedWithout(allocs[1..], device, card, split, j - 1);
      var less := allocs[..j] + allocs[j + 1..];
      assert less[1..] == allocs[1..][..j - 1] + allocs[1..][j..];
      assert less[0] == allocs[0];
    }
  }

  lemma {:induction false} UsedCovers(allocs: seq<Allocation>, device: string, card: Card, split: int, i: nat)
    requires Carvable(card) && i < |allocs| && allocs[i].device == device
    ensures var used, one := Used(allocs, device, card, split), ShareOf(card, split, allocs[i].request);
            used.cores >= one.cores && used.memory >= one.memory
  {
    UsedIsNonnegative(allocs[1..], device, card, split);
    if i > 0 {
      UsedCovers(allocs[1..], device, card, split, i - 1);
    }
  }

  lemma {:induction false} UsedCoversTwo(allocs: seq<Allocation>, device: string, card: Card, split: int, i: nat,
                                j: nat)
    requires Carvable(card) && i < j < |allocs| && allocs[i].device == device && allocs[j].device == device
    ensures var used := Used(allocs, device, card, split);
            var two := Plus(ShareOf(card, split, allocs[i].request), ShareOf(card, split, allocs[j].request));
            used.cores >= two.cores && used.memory >= two.memory
  {
    if i == 0 {
      UsedCovers(allocs[1..], device, card, split, j - 1);
    } else {
      UsedCoversTwo(allocs[1..], device, card, split, i - 1, j - 1);
    }
  }

  /** A whole-card allocation leaves nothing: no other admitted allocation on that card has a positive share. */
  lemma WholeCardIsExclusive(allocs: seq<Allocation>, device: string, card: Card, split: int, i: nat, j: nat)
    requires Carvable(card) && Admitted(allocs, device, card, split)
    requires i < |allocs| && j < |allocs| && i != j && allocs[i].device == device && allocs[j].device == device
    requires IsWholeCard(allocs[i].request)
    ensures var share := ShareOf(card, split, allocs[j].request); share.cores == 0 && share.memory == 0
    ensures !IsWholeCard(allocs[j].request) && !Positive(allocs[j].request)
  {
    UsedCoversTwo(allocs, device, card, split, if i < j then i else j, if i < j then j else i);
    var r := allocs[j].request;
    assert Consumed(CoresPolicy(card), r.cores) == 0;
  }
}
