/** Counters of partitionable devices (cmd/hami-kubelet-plugin/partitions.go) and the walk over MIG profiles
    that sizes them (nvlib.go, inspectMigProfilesAndPlacements). */
module Partitions {
  import opened Base
  import opened CounterNames
  import Nvlib

  datatype Placement = Placement(start: nat, size: nat)

  /** GPU instance profile as NVML reports it. */
  datatype GiProfile = GiProfile(multiprocessors: nat, copyEngines: nat, decoders: nat, encoders: nat, jpegs: nat, ofas: nat, memoryMiB: nat)

  datatype MigSpec = MigSpec(profile: GiProfile, placement: Placement)

  type Capacities = map<Dimension, int>

  /** A counter set or a consumption, keyed by what each counter counts. */
  type Counters = map<CounterKey, int>

  /** The conversion of an unsigned 64-bit value to a signed one. */
  function Int64(v: nat): int {
    var w := v % 0x1_0000_0000_0000_0000;
    if w <= MaxInt64 then w else w - 0x1_0000_0000_0000_0000
  }

  function Capacity(p: GiProfile, d: Dimension): int {
    match d
    case Multiprocessors => p.multiprocessors
    case CopyEngines => p.copyEngines
    case Decoders => p.decoders
    case Encoders => p.encoders
    case JpegEngines => p.jpegs
    case OfaEngines => p.ofas
    case Memory => Int64(p.memoryMiB * 1024 * 1024)
  }

  const Dimensions: set<Dimension> := set d: Dimension | true

  function PartCapacities(p: GiProfile): Capacities {
    map d | d in Dimensions :: Capacity(p, d)
  }

  // ---------------------------------------------------------------- counters

  /** One counter of value 1 for each memory slice of a placement. */
  function SliceCounters(start: nat, size: nat): Counters {
    map i | start <= i < start + size :: Slice(i) := 1
  }

  method AddCountersForMemSlices(counters: Counters, start: nat, size: nat) returns (r: Counters)
    ensures r == counters + SliceCounters(start, size)
  {
    r := counters;
    for i := start to start + size
      invariant r == counters + SliceCounters(start, i - start)
    {
      r := r[Slice(i) := 1];
    }
  }

  function DimensionCounters(caps: Capacities): Counters {
    map d | d in caps :: Dim(d) := caps[d]
  }

  /** capacitiesToCounters, for every iteration order of the map. */
  method CapacitiesToCounters(caps: Capacities) returns (r: Counters)
    ensures r == DimensionCounters(caps)
  {
    r := map[];
    var todo := caps.Keys;
    while todo != {}
      invariant todo <= caps.Keys
      invariant r == map d | d in caps && d !in todo :: Dim(d) := caps[d]
    {
      var d :| d in todo;
      todo := todo - {d};
      r := r[Dim(d) := caps[d]];
    }
  }

  /** What a partition takes from its parent's counter set. */
  function Consumption(s: MigSpec): Counters {
    DimensionCounters(PartCapacities(s.profile)) + SliceCounters(s.placement.start, s.placement.size)
  }

  /** The counter set of a GPU, which is also what the full GPU takes from it. */
  function Published(maxCapacities: Capacities, memSliceCount: nat): Counters {
    DimensionCounters(maxCapacities) + SliceCounters(0, memSliceCount)
  }

  method PartConsumesCounters(s: MigSpec) returns (r: Counters)
    ensures r == Consumption(s)
  {
    var caps := CapacitiesToCounters(PartCapacities(s.profile));
    r := AddCountersForMemSlices(caps, s.placement.start, s.placement.size);
  }

  method PartSharedCounters(maxCapacities: Capacities, memSliceCount: nat) returns (r: Counters)
    ensures r == Published(maxCapacities, memSliceCount)
  {
    var caps := CapacitiesToCounters(maxCapacities);
    r := AddCountersForMemSlices(caps, 0, memSliceCount);
  }

  // --------------------------------------------------- the scheduler's rule

  function Taken(devices: seq<Counters>, counter: CounterKey): int {
    if devices == [] then 0 else
    var last := devices[|devices| - 1];
    Taken(devices[..|devices| - 1], counter) + if counter in last then last[counter] else 0
  }

  /** A set of devices may be allocated together on this counter. */
  predicate FitsCounter(set_: Counters, devices: seq<Counters>, counter: CounterKey) {
    Taken(devices, counter) <= if counter in set_ then set_[counter] else 0
  }

  ghost predicate Fits(set_: Counters, devices: seq<Counters>) {
    forall counter :: FitsCounter(set_, devices, counter)
  }

  predicate Covers(p: Placement, i: nat) {
    p.start <= i < p.start + p.size
  }

  predicate Within(p: Placement, memSliceCount: nat) {
    p.start + p.size <= memSliceCount
  }

  ghost predicate PairwiseDisjoint(ps: seq<MigSpec>) {
    forall i, j, k: nat :: 0 <= i < j < |ps| ==> !(Covers(ps[i].placement, k) && Covers(ps[j].placement, k))
  }

  function Consumptions(ps: seq<MigSpec>): (r: seq<Counters>)
    ensures |r| == |ps| && forall i :: 0 <= i < |ps| ==> r[i] == Consumption(ps[i])
  {
    seq(|ps|, i requires 0 <= i < |ps| => Consumption(ps[i]))
  }

  /** How many partitions cover slice i. */
  function CoverCount(ps: seq<MigSpec>, i: nat): nat {
    if ps == [] then 0 else CoverCount(ps[..|ps| - 1], i) + if Covers(ps[|ps| - 1].placement, i) then 1 else 0
  }

  lemma {:induction false} TakenIsCoverCount(ps: seq<MigSpec>, i: nat)
    ensures Taken(Consumptions(ps), Slice(i)) == CoverCount(ps, i)
  {
    if ps != [] {
      var rest := ps[..|ps| - 1];
      TakenIsCoverCount(rest, i);
      assert Consumptions(ps)[..|ps| - 1] == Consumptions(rest);
    }
  }

  lemma {:induction false} CoveredAtMostOnceIff(ps: seq<MigSpec>, i: nat)
    ensures CoverCount(ps, i) == 0 <==> forall a :: 0 <= a < |ps| ==> !Covers(ps[a].placement, i)
    ensures CoverCount(ps, i) <= 1 <==>
            forall a, b :: 0 <= a < b < |ps| ==> !(Covers(ps[a].placement, i) && Covers(ps[b].placement, i))
  {
    if ps != [] {
      var n := |ps| - 1;
      var rest := ps[..n];
      CoveredAtMostOnceIff(rest, i);
      assert forall a :: 0 <= a < n ==> rest[a] == ps[a];
      if CoverCount(rest, i) != 0 {
        var a :| 0 <= a < |rest| && Covers(rest[a].placement, i);
        assert Covers(ps[a].placement, i);
      }
      if CoverCount(rest, i) > 1 {
        var a, b :| 0 <= a < b < |rest| && Covers(rest[a].placement, i) && Covers(rest[b].placement, i);
        assert Covers(ps[a].placement, i) && Covers(ps[b].placement, i);
      }
    }
  }

  predicate SliceOnce(ps: seq<MigSpec>, k: nat) {
    forall a, b :: 0 <= a < b < |ps| ==> !(Covers(ps[a].placement, k) && Covers(ps[b].placement, k))
  }

  /** A slice that no partition covers has the counter to itself. */
  lemma UncoveredSlice(ps: seq<MigSpec>, count: nat, k: nat)
    requires k >= count && forall i :: 0 <= i < |ps| ==> Within(ps[i].placement, count)
    ensures CoverCount(ps, k) == 0 && SliceOnce(ps, k)
  {
    CoveredAtMostOnceIff(ps, k);
  }

  lemma SliceFitsIff(ps: seq<MigSpec>, maxCapacities: Capacities, count: nat, k: nat)
    requires forall i :: 0 <= i < |ps| ==> Within(ps[i].placement, count)
    ensures FitsCounter(Published(maxCapacities, count), Consumptions(ps), Slice(k)) <==> SliceOnce(ps, k)
  {
    TakenIsCoverCount(ps, k);
    CoveredAtMostOnceIff(ps, k);
    PublishedAt(maxCapacities, count, Slice(k));
    if k >= count {
      UncoveredSlice(ps, count, k);
    }
  }

  /** For any partitions of one GPU that lie within its slices: the memory slice counters allow them
      together exactly when their placements are pairwise disjoint. */
  lemma SliceCountersExact(ps: seq<MigSpec>, maxCapacities: Capacities, count: nat)
    requires forall i :: 0 <= i < |ps| ==> Within(ps[i].placement, count)
    ensures (forall k: nat :: FitsCounter(Published(maxCapacities, count), Consumptions(ps), Slice(k))) <==> PairwiseDisjoint(ps)
  {
    forall k: nat ensures FitsCounter(Published(maxCapacities, count), Consumptions(ps), Slice(k)) <==> SliceOnce(ps, k) {
      SliceFitsIff(ps, maxCapacities, count, k);
    }
    if !PairwiseDisjoint(ps) {
      var a, b, k: nat :| 0 <= a < b < |ps| && Covers(ps[a].placement, k) && Covers(ps[b].placement, k);
      assert !SliceOnce(ps, k);
      assert !FitsCounter(Published(maxCapacities, count), Consumptions(ps), Slice(k));
    } else {
      assert forall k: nat :: SliceOnce(ps, k);
    }
  }

  /** The rule agrees with the hardware: two non-empty placements share a slice exactly when NVML
      refuses to hold both. */
  lemma DisjointAsHardware(a: Placement, b: Placement)
    requires a.size > 0 && b.size > 0
    ensures Nvlib.Overlap(Nvlib.Gi(0, a.start, a.size, None), Nvlib.Gi(0, b.start, b.size, None)) <==>
            exists k: nat :: Covers(a, k) && Covers(b, k)
  {
    if Nvlib.Overlap(Nvlib.Gi(0, a.start, a.size, None), Nvlib.Gi(0, b.start, b.size, None)) {
      var k := if a.start < b.start then b.start else a.start;
      assert Covers(a, k) && Covers(b, k);
    }
  }

  lemma {:induction false} TakenAtLeastTwo(devices: seq<Counters>, counter: CounterKey, i: nat, j: nat)
    requires i < |devices| && j < |devices| && i != j
    requires counter in devices[i] && counter in devices[j] && devices[i][counter] == devices[j][counter] == 1
    requires forall k :: 0 <= k < |devices| && counter in devices[k] ==> devices[k][counter] >= 0
    ensures Taken(devices, counter) >= 2
  {
    var n := |devices| - 1;
    var rest := devices[..n];
    if i < n && j < n {
      TakenAtLeastTwo(rest, counter, i, j);
    } else {
      TakenAtLeastOne(rest, counter, if i == n then j else i);
    }
  }

  lemma {:induction false} TakenAtLeastOne(devices: seq<Counters>, counter: CounterKey, i: nat)
    requires i < |devices| && counter in devices[i] && devices[i][counter] == 1
    requires forall k :: 0 <= k < |devices| && counter in devices[k] ==> devices[k][counter] >= 0
    ensures Taken(devices, counter) >= 1
  {
    var n := |devices| - 1;
    var rest := devices[..n];
    if i < n {
      TakenAtLeastOne(rest, counter, i);
    } else {
      TakenNonNegative(rest, counter);
    }
  }

  lemma {:induction false} TakenNonNegative(devices: seq<Counters>, counter: CounterKey)
    requires forall k :: 0 <= k < |devices| && counter in devices[k] ==> devices[k][counter] >= 0
    ensures Taken(devices, counter) >= 0
  {
    if devices != [] {
      TakenNonNegative(devices[..|devices| - 1], counter);
    }
  }

  datatype Announced = FullGpu | Partition(spec: MigSpec)

  function AnnouncedConsumption(d: Announced, maxCapacities: Capacities, count: nat): Counters
  {
    if d.FullGpu? then Published(maxCapacities, count) else Consumption(d.spec)
  }

  function AnnouncedConsumptions(ds: seq<Announced>, maxCapacities: Capacities, count: nat): (r: seq<Counters>)
    ensures |r| == |ds| && forall i :: 0 <= i < |ds| ==> r[i] == AnnouncedConsumption(ds[i], maxCapacities, count)
  {
    seq(|ds|, i requires 0 <= i < |ds| => AnnouncedConsumption(ds[i], maxCapacities, count))
  }

  /** Beside the allocated full GPU there is room for no partition of size 1 or more and for no second full GPU. */
  lemma FullGpuExcludes(ds: seq<Announced>, maxCapacities: Capacities, count: nat, full: nat, other: nat)
    requires count > 0
    requires full < |ds| && other < |ds| && full != other && ds[full].FullGpu?
    requires ds[other].Partition? ==> ds[other].spec.placement.size > 0
    ensures !Fits(Published(maxCapacities, count), AnnouncedConsumptions(ds, maxCapacities, count))
  {
    var all := AnnouncedConsumptions(ds, maxCapacities, count);
    var k := if ds[other].Partition? then ds[other].spec.placement.start else 0;
    forall i | 0 <= i < |ds|
      ensures Slice(k) in all[i] ==> all[i][Slice(k)] == 1
      ensures Slice(k) in all[i] <==> if ds[i].FullGpu? then k < count else Covers(ds[i].spec.placement, k)
    {
      PublishedAt(maxCapacities, count, Slice(k));
      if ds[i].Partition? {
        ConsumptionAt(ds[i].spec, Slice(k));
      }
    }
    PublishedAt(maxCapacities, count, Slice(k));
    if k < count {
      TakenAtLeastTwo(all, Slice(k), full, other);
    } else {
      TakenAtLeastOne(all, Slice(k), other);
    }
    assert !FitsCounter(Published(maxCapacities, count), all, Slice(k));
  }

  // ------------------------------------------------- the walk over profiles

  datatype Query<T> = Answer(value: T) | Unsupported | Broken

  /** One MIG profile as the walk meets it: C and G slices, the engine-profile exclusion, and NVML's answers. */
  datatype Visit = Visit(c: nat, g: nat, rev1: bool, info: Query<GiProfile>, placements: Query<seq<Placement>>)

  /** The specs one profile contributes; None when the walk fails there. */
  function VisitSpecs(v: Visit): Option<seq<MigSpec>> {
    if v.c != v.g || v.rev1 || v.info.Unsupported? then Some([])
    else if v.info.Broken? then None
    else match v.placements
      case Unsupported => Some([])
      case Broken => None
      case Answer(ps) => Some(SpecsOf(v.info.value, ps))
  }

  function SpecsOf(profile: GiProfile, ps: seq<Placement>): seq<MigSpec> {
    if ps == [] then [] else SpecsOf(profile, ps[..|ps| - 1]) + [MigSpec(profile, ps[|ps| - 1])]
  }

  function AllSpecs(visits: seq<Visit>): Option<seq<MigSpec>> {
    if visits == [] then Some([]) else
    match (AllSpecs(visits[..|visits| - 1]), VisitSpecs(visits[|visits| - 1]))
    case (Some(a), Some(b)) => Some(a + b)
    case _ => None
  }

  ghost predicate Attains(specs: seq<MigSpec>, d: Dimension, v: int) {
    exists i :: 0 <= i < |specs| && Capacity(specs[i].profile, d) == v
  }

  ghost predicate AttainsSize(specs: seq<MigSpec>, size: nat) {
    exists i :: 0 <= i < |specs| && specs[i].placement.size == size
  }

  /** Per-dimension maxima: they dominate every partition in every dimension and are attained. */
  ghost predicate AreMaxima(specs: seq<MigSpec>, maxCapacities: Capacities, maxSlices: nat) {
    && maxCapacities.Keys == (if specs == [] then {} else Dimensions)
    && (forall i, d :: 0 <= i < |specs| && d in maxCapacities ==> Capacity(specs[i].profile, d) <= maxCapacities[d])
    && (forall d :: d in maxCapacities ==> Attains(specs, d, maxCapacities[d]))
    && (forall i :: 0 <= i < |specs| ==> specs[i].placement.size <= maxSlices)
    && (maxSlices > 0 ==> AttainsSize(specs, maxSlices))
  }

  method SetMax(m: Capacities, k: Dimension, v: int) returns (r: Capacities)
    ensures r.Keys == m.Keys + {k} && (forall d :: d in m && d != k ==> r[d] == m[d])
    ensures r[k] == if k in m && m[k] >= v then m[k] else v
  {
    r := m;
    if k !in m || v > m[k] {
      r := r[k := v];
    }
  }

  /** Fold one partition into the maxima, for every iteration order of its capacities. */
  method FoldCapacities(m: Capacities, caps: Capacities) returns (r: Capacities)
    ensures r.Keys == m.Keys + caps.Keys
    ensures forall d :: d in r ==> r[d] == if d in caps && (d !in m || caps[d] > m[d]) then caps[d] else m[d]
  {
    r := m;
    var todo := caps.Keys;
    while todo != {}
      invariant todo <= caps.Keys && r.Keys == m.Keys + (caps.Keys - todo)
      invariant forall d :: d in r ==> r[d] == if d in caps && d !in todo && (d !in m || caps[d] > m[d]) then caps[d] else m[d]
    {
      var d :| d in todo;
      todo := todo - {d};
      r := SetMax(r, d, caps[d]);
    }
  }

  lemma AttainsExtends(specs: seq<MigSpec>, s: MigSpec)
    ensures forall d, v :: Attains(specs, d, v) ==> Attains(specs + [s], d, v)
    ensures forall size :: AttainsSize(specs, size) ==> AttainsSize(specs + [s], size)
    ensures forall d :: Attains(specs + [s], d, Capacity(s.profile, d))
    ensures AttainsSize(specs + [s], s.placement.size)
  {
    var all, n := specs + [s], |specs|;
    assert all[n] == s;
    forall d, v | Attains(specs, d, v) ensures Attains(all, d, v) {
      var i :| 0 <= i < n && Capacity(specs[i].profile, d) == v;
      assert all[i] == specs[i];
    }
    forall size | AttainsSize(specs, size) ensures AttainsSize(all, size) {
      var i :| 0 <= i < n && specs[i].placement.size == size;
      assert all[i] == specs[i];
    }
    forall d ensures Attains(all, d, Capacity(s.profile, d)) {
      assert Capacity(all[n].profile, d) == Capacity(s.profile, d);
    }
  }

  lemma ExtendMaxima(specs: seq<MigSpec>, s: MigSpec, m: Capacities, slices: nat, m': Capacities)
    requires AreMaxima(specs, m, slices)
    requires m'.Keys == Dimensions
    requires forall d :: d in m' ==> m'[d] == if d !in m || Capacity(s.profile, d) > m[d] then Capacity(s.profile, d) else m[d]
    ensures AreMaxima(specs + [s], m', if s.placement.size > slices then s.placement.size else slices)
  {
    AttainsExtends(specs, s);
    var all := specs + [s];
    forall i, d | 0 <= i < |all| && d in m' ensures Capacity(all[i].profile, d) <= m'[d] {
      if i < |specs| {
        assert all[i] == specs[i];
      }
    }
  }

  /** One more partition: raise the maxima it exceeds. */
  method AccountFor(ghost specs: seq<MigSpec>, maxCapacities: Capacities, maxSlices: nat, mi: MigSpec) returns (caps: Capacities, slices: nat)
    requires AreMaxima(specs, maxCapacities, maxSlices)
    ensures AreMaxima(specs + [mi], caps, slices)
  {
    caps := FoldCapacities(maxCapacities, PartCapacities(mi.profile));
    slices := maxSlices;
    if mi.placement.size > slices {
      slices := mi.placement.size;
    }
    ExtendMaxima(specs, mi, maxCapacities, maxSlices, caps);
  }

  lemma SpecsOfNext(profile: GiProfile, placements: seq<Placement>, j: nat)
    requires j < |placements|
    ensures SpecsOf(profile, placements[..j + 1]) == SpecsOf(profile, placements[..j]) + [MigSpec(profile, placements[j])]
  {
    assert placements[..j + 1][..j] == placements[..j];
  }

  /** The inner loop: one profile's placements. */
  method WalkPlacements(infos: seq<MigSpec>, maxCapacities: Capacities, maxSlices: nat, profile: GiProfile, placements: seq<Placement>)
    returns (infos': seq<MigSpec>, caps: Capacities, slices: nat)
    requires AreMaxima(infos, maxCapacities, maxSlices)
    ensures infos' == infos + SpecsOf(profile, placements) && AreMaxima(infos', caps, slices)
  {
    infos', caps, slices := infos, maxCapacities, maxSlices;
    for j := 0 to |placements|
      invariant infos' == infos + SpecsOf(profile, placements[..j]) && AreMaxima(infos', caps, slices)
    {
      var mi := MigSpec(profile, placements[j]);
      caps, slices := AccountFor(infos', caps, slices, mi);
      infos' := infos' + [mi];
      SpecsOfNext(profile, placements, j);
    }
    assert placements[..|placements|] == placements;
  }

  /** inspectMigProfilesAndPlacements. */
  method InspectMigProfiles(visits: seq<Visit>) returns (r: Result<seq<MigSpec>>, maxCapacities: Capacities, maxSlices: nat)
    ensures r == match AllSpecs(visits) case Some(specs) => Ok(specs) case None => Err
    ensures r.Ok? ==> AreMaxima(r.value, maxCapacities, maxSlices)
  {
    var infos: seq<MigSpec> := [];
    maxCapacities, maxSlices := map[], 0;
    for i := 0 to |visits|
      invariant AllSpecs(visits[..i]) == Some(infos) && AreMaxima(infos, maxCapacities, maxSlices)
    {
      var v := visits[i];
      assert visits[..i + 1][..i] == visits[..i] && infos + [] == infos;
      if v.c != v.g || v.rev1 || v.info.Unsupported? {
        continue;
      }
      if v.info.Broken? || v.placements.Broken? {
        FailureStays(visits, i);
        return Err, maxCapacities, maxSlices;
      }
      if v.placements.Answer? {
        infos, maxCapacities, maxSlices := WalkPlacements(infos, maxCapacities, maxSlices, v.info.value, v.placements.value);
      }
    }
    assert visits[..|visits|] == visits;
    r := Ok(infos);
  }

  lemma {:induction false} FailureStays(visits: seq<Visit>, i: nat)
    requires i < |visits| && VisitSpecs(visits[i]) == None
    ensures AllSpecs(visits) == None
  {
    if i < |visits| - 1 {
      FailureStays(visits[..|visits| - 1], i);
    }
  }

  lemma TakenAlone(d: Counters, n: CounterKey)
    ensures Taken([d], n) == if n in d then d[n] else 0
  {
    var one: seq<Counters> := [d];
    assert one[..0] == [];
  }

  lemma ConsumptionAt(s: MigSpec, n: CounterKey)
    ensures n in Consumption(s) <==> n.Dim? || Covers(s.placement, n.index)
    ensures n in Consumption(s) ==> Consumption(s)[n] == if n.Dim? then Capacity(s.profile, n.dimension) else 1
  {
    var caps, slices := DimensionCounters(PartCapacities(s.profile)), SliceCounters(s.placement.start, s.placement.size);
    if n.Dim? {
      assert n.dimension in PartCapacities(s.profile) && n in caps && n !in slices;
    } else {
      assert n !in caps && (n in slices <==> Covers(s.placement, n.index));
    }
  }

  lemma PublishedAt(maxCapacities: Capacities, count: nat, n: CounterKey)
    ensures n in Published(maxCapacities, count) <==> if n.Dim? then n.dimension in maxCapacities else n.index < count
    ensures n in Published(maxCapacities, count) ==> Published(maxCapacities, count)[n] == if n.Dim? then maxCapacities[n.dimension] else 1
  {
    var caps, slices := DimensionCounters(maxCapacities), SliceCounters(0, count);
    if n.Dim? {
      assert n !in slices && (n in caps <==> n.dimension in maxCapacities);
    } else {
      assert n !in caps && (n in slices <==> n.index < count);
    }
  }

  lemma CounterFitsAlone(specs: seq<MigSpec>, maxCapacities: Capacities, maxSlices: nat, i: nat, n: CounterKey)
    requires AreMaxima(specs, maxCapacities, maxSlices) && i < |specs|
    ensures FitsCounter(Published(maxCapacities, maxSlices), [Consumption(specs[i])], n) <==>
            n.Dim? || n.index < maxSlices || !Covers(specs[i].placement, n.index)
  {
    TakenAlone(Consumption(specs[i]), n);
    ConsumptionAt(specs[i], n);
    PublishedAt(maxCapacities, maxSlices, n);
    if n.Dim? {
      assert n.dimension in Dimensions && n.dimension in maxCapacities;
    }
  }

  /** Every device the walk announces fits the published counters alone exactly when its placement
      lies within the slices counted; the full GPU always does. */
  lemma AnnouncedFitsAloneIff(specs: seq<MigSpec>, maxCapacities: Capacities, maxSlices: nat, i: nat)
    requires AreMaxima(specs, maxCapacities, maxSlices) && i < |specs|
    ensures Fits(Published(maxCapacities, maxSlices), [Consumption(specs[i])]) <==>
            specs[i].placement.size == 0 || Within(specs[i].placement, maxSlices)
    ensures Fits(Published(maxCapacities, maxSlices), [Published(maxCapacities, maxSlices)])
  {
    PartitionFitsAloneIff(specs, maxCapacities, maxSlices, i);
    FullFitsAlone(maxCapacities, maxSlices);
  }

  lemma FullFitsAlone(maxCapacities: Capacities, maxSlices: nat)
    ensures Fits(Published(maxCapacities, maxSlices), [Published(maxCapacities, maxSlices)])
  {
    var p := Published(maxCapacities, maxSlices);
    forall n ensures FitsCounter(p, [p], n) {
      TakenAlone(p, n);
    }
  }

  lemma PartitionFitsAloneIff(specs: seq<MigSpec>, maxCapacities: Capacities, maxSlices: nat, i: nat)
    requires AreMaxima(specs, maxCapacities, maxSlices) && i < |specs|
    ensures Fits(Published(maxCapacities, maxSlices), [Consumption(specs[i])]) <==>
            specs[i].placement.size == 0 || Within(specs[i].placement, maxSlices)
  {
    var p, s := Published(maxCapacities, maxSlices), specs[i];
    if s.placement.size == 0 || Within(s.placement, maxSlices) {
      forall n ensures FitsCounter(p, [Consumption(s)], n) {
        CounterFitsAlone(specs, maxCapacities, maxSlices, i, n);
      }
    } else {
      var k := s.placement.start + s.placement.size - 1;
      CounterFitsAlone(specs, maxCapacities, maxSlices, i, Slice(k));
      assert !FitsCounter(p, [Consumption(s)], Slice(k));
    }
  }
}
