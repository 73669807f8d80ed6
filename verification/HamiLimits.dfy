/** The memory and SM limits HAMi-Core injects into a container, one set for each config group of a claim (hami_core.go,
    device_state.go). */
module HamiLimits {
  import opened Base
  import opened Claims

  type CapacityMap = map<string, map<string, Quantity>>

  /** The value that survives when the results of one device are merged in order. */
  function LastConsumed(results: seq<AllocResult>, device: string, name: string): (q: Option<Quantity>)
  {
    if results == [] then None else
    var last := results[|results| - 1];
    if last.device == device && name in last.consumed then Some(last.consumed[name])
    else LastConsumed(results[..|results| - 1], device, name)
  }

  ghost predicate IsMerge(m: CapacityMap, results: seq<AllocResult>) {
    && (forall d :: d in m <==> exists i :: 0 <= i < |results| && results[i].device == d)
    && (forall d, name :: d in m ==> Lookup(m[d], name) == LastConsumed(results, d, name))
  }

  function Lookup(m: map<string, Quantity>, name: string): Option<Quantity> {
    if name in m then Some(m[name]) else None
  }

  method GetConsumableCapacityMap(results: seq<AllocResult>) returns (m: CapacityMap)
    ensures IsMerge(m, results)
  {
    m := map[];
    for i := 0 to |results|
      invariant IsMerge(m, results[..i])
    {
      var r := results[i];
      ghost var before := m;
      if r.device !in m {
        m := m[r.device := map[]];
      }
      m := m[r.device := m[r.device] + r.consumed];
      ghost var next := results[..i + 1];
      assert next[..i] == results[..i] && next[i] == r;
      forall d, name | d in m ensures Lookup(m[d], name) == LastConsumed(next, d, name) {
        if d !in before {
          NeverConsumed(results[..i], d, name);
        }
      }
      forall d ensures d in m <==> exists j :: 0 <= j < |next| && next[j].device == d {
        if d in before {
          var j :| 0 <= j < i && results[..i][j].device == d;
          assert next[j].device == d;
        }
      }
    }
    assert results[..|results|] == results;
  }

  lemma {:induction false} NeverConsumed(results: seq<AllocResult>, d: string, name: string)
    requires forall i :: 0 <= i < |results| ==> results[i].device != d
    ensures LastConsumed(results, d, name) == None
  {
    if results != [] {
      NeverConsumed(results[..|results| - 1], d, name);
    }
  }

  const MiB := 1024 * 1024

  /** The memory limit, in MiB, for a device with these total bytes. */
  function MemoryMiB(results: seq<AllocResult>, device: string, bytes: nat): int {
    match LastConsumed(results, device, "memory")
    case Some(Some(v)) => Truncate(Truncate(v, 1024), 1024)
    case _ => bytes / 1024 / 1024
  }

  /** The SM limit, in percent. */
  function SmPercent(results: seq<AllocResult>, device: string): int {
    match LastConsumed(results, device, "cores")
    case Some(Some(v)) => v
    case _ => 60
  }

  /** Division of the source language: towards zero. */
  function Truncate(v: int, divisor: nat): int
    requires divisor > 0
  {
    if v >= 0 then v / divisor else -(-v / divisor)
  }

  datatype EnvVar = SmLimit(index: nat, percent: int) | MemoryLimit(index: nat, mib: int)

  /** Position i of the order carries the limits of its device. */
  predicate Carries(envs: seq<EnvVar>, results: seq<AllocResult>, devices: map<string, nat>, d: string, i: nat) {
    && d in devices && 2 * i + 1 < |envs|
    && envs[2 * i] == SmLimit(i, SmPercent(results, d))
    && envs[2 * i + 1] == MemoryLimit(i, MemoryMiB(results, d, devices[d]))
  }

  method DeviceLimits(caps: CapacityMap, d: string, bytes: nat, ghost results: seq<AllocResult>) returns (sm: int, mib: int)
    requires IsMerge(caps, results)
    ensures sm == SmPercent(results, d) && mib == MemoryMiB(results, d, bytes)
  {
    sm, mib := 60, bytes / 1024 / 1024;
    if d in caps {
      var c: map<string, Quantity> := caps[d];
      assert Lookup(c, "cores") == LastConsumed(results, d, "cores");
      assert Lookup(c, "memory") == LastConsumed(results, d, "memory");
      if "cores" in c && c["cores"].Some? {
        sm := c["cores"].value;
      }
      if "memory" in c && c["memory"].Some? {
        mib := Truncate(Truncate(c["memory"].value, 1024), 1024);
      }
    } else {
      NeverConsumed(results, d, "cores");
      NeverConsumed(results, d, "memory");
    }
  }

  /** What one group's loop puts out: the order visits each device once, and position i of it, and no other, carries the
      limits of its device. */
  ghost predicate GroupOk(results: seq<AllocResult>, devices: map<string, nat>, envs: seq<EnvVar>, order: seq<string>) {
    && |order| == |devices| && |envs| == 2 * |order|
    && (forall d :: d in devices <==> d in order)
    && (forall i, j :: 0 <= i < j < |order| ==> order[i] != order[j])
    && (forall i :: 0 <= i < |order| ==> Carries(envs, results, devices, order[i], i))
  }

  /** The loop over the devices of one config group, for every iteration order; the results are the whole claim's. */
  method LimitEnvs(results: seq<AllocResult>, devices: map<string, nat>) returns (envs: seq<EnvVar>, ghost order: seq<string>)
    ensures |envs| == 2 * |devices| && forall d :: d in devices ==> exists i: nat :: Carries(envs, results, devices, d, i)
    ensures GroupOk(results, devices, envs, order)
  {
    var caps := GetConsumableCapacityMap(results);
    envs, order := [], [];
    var idx, todo := 0, devices.Keys;
    while todo != {}
      invariant idx == |order| && todo <= devices.Keys
      invariant GroupSoFar(results, devices, todo, envs, order)
    {
      var d :| d in todo;
      var sm, mib := DeviceLimits(caps, d, devices[d], results);
      GroupGrows(results, devices, todo, envs, order, d, sm, mib);
      todo := todo - {d};
      envs := envs + [SmLimit(idx, sm), MemoryLimit(idx, mib)];
      order := order + [d];
      idx := idx + 1;
    }
    GroupDone(results, devices, envs, order);
  }

  /** The variables for all devices but those still to do. */
  ghost predicate GroupSoFar(results: seq<AllocResult>, devices: map<string, nat>, todo: set<string>, envs: seq<EnvVar>, order: seq<string>) {
    && |envs| == 2 * |order| && |order| + |todo| == |devices|
    && (forall d :: d in devices && d !in todo <==> d in order)
    && (forall i, j :: 0 <= i < j < |order| ==> order[i] != order[j])
    && (forall i :: 0 <= i < |order| ==> Carries(envs, results, devices, order[i], i))
  }

  lemma GroupGrows(results: seq<AllocResult>, devices: map<string, nat>, todo: set<string>, envs: seq<EnvVar>, order: seq<string>, d: string, sm: int, mib: int)
    requires GroupSoFar(results, devices, todo, envs, order) && d in todo && d in devices
    requires sm == SmPercent(results, d) && mib == MemoryMiB(results, d, devices[d])
    ensures GroupSoFar(results, devices, todo - {d}, envs + [SmLimit(|order|, sm), MemoryLimit(|order|, mib)], order + [d])
  {
    var envs', order' := envs + [SmLimit(|order|, sm), MemoryLimit(|order|, mib)], order + [d];
    forall i | 0 <= i < |order'| ensures Carries(envs', results, devices, order'[i], i) {
      assert i < |order| ==> Carries(envs, results, devices, order[i], i);
    }
  }

  lemma GroupDone(results: seq<AllocResult>, devices: map<string, nat>, envs: seq<EnvVar>, order: seq<string>)
    requires GroupSoFar(results, devices, {}, envs, order)
    ensures GroupOk(results, devices, envs, order)
    ensures forall d :: d in devices ==> exists i: nat :: Carries(envs, results, devices, d, i)
  {
    forall d | d in devices ensures exists i: nat :: Carries(envs, results, devices, d, i) {
      var i :| 0 <= i < |order| && order[i] == d;
      assert Carries(envs, results, devices, order[i], i);
    }
  }

  /** prepareDevices applies every group's config for itself, and the index starts over each time. */
  method ClaimEnvs(results: seq<AllocResult>, groups: seq<map<string, nat>>) returns (envs: seq<seq<EnvVar>>, ghost orders: seq<seq<string>>)
    ensures |envs| == |groups| && forall g :: 0 <= g < |groups| ==> |envs[g]| == 2 * |groups[g]|
    ensures ClaimOk(results, groups, envs, orders)
  {
    envs, orders := [], [];
    for g := 0 to |groups|
      invariant |envs| == |orders| == g
      invariant forall h :: 0 <= h < g ==> GroupOk(results, groups[h], envs[h], orders[h])
    {
      var group, order := LimitEnvs(results, groups[g]);
      envs, orders := envs + [group], orders + [order];
    }
  }

  // ---------------------------------------------------------- limit indices

  /** The indices that the variables of one group carry, of one kind: SM limits or memory limits. */
  function GroupIndices(envs: seq<EnvVar>, memory: bool): (s: seq<nat>) {
    if envs == [] then [] else
    var last := envs[|envs| - 1];
    GroupIndices(envs[..|envs| - 1], memory) + if last.MemoryLimit? == memory then [last.index] else []
  }

  /** The same over all groups of a claim. */
  function ClaimIndices(envs: seq<seq<EnvVar>>, memory: bool): (s: seq<nat>) {
    if envs == [] then [] else ClaimIndices(envs[..|envs| - 1], memory) + GroupIndices(envs[|envs| - 1], memory)
  }

  function UpTo(n: nat): (s: seq<nat>)
    ensures |s| == n && forall i :: 0 <= i < n ==> s[i] == i
  {
    seq(n, i => i)
  }

  function CountOf(s: seq<nat>, x: nat): nat {
    multiset(s)[x]
  }

  /** How many groups have devices. */
  function NonEmpty(groups: seq<map<string, nat>>): nat {
    if groups == [] then 0 else NonEmpty(groups[..|groups| - 1]) + if |groups[|groups| - 1]| > 0 then 1 else 0
  }

  /** As many indices as there are, 0, 1, 2, ... are given out once each. */
  ghost predicate EachOnce(s: seq<nat>) {
    forall i: nat :: i < |s| ==> CountOf(s, i) == 1
  }

  /** What ClaimEnvs returns. */
  ghost predicate ClaimOk(results: seq<AllocResult>, groups: seq<map<string, nat>>, envs: seq<seq<EnvVar>>, orders: seq<seq<string>>) {
    |envs| == |orders| == |groups| && forall g :: 0 <= g < |groups| ==> GroupOk(results, groups[g], envs[g], orders[g])
  }

  /** The first n pairs of a group's variables carry the indices below n. */
  lemma {:induction false} PairsCountUp(results: seq<AllocResult>, devices: map<string, nat>, envs: seq<EnvVar>, order: seq<string>, n: nat, memory: bool)
    requires GroupOk(results, devices, envs, order) && n <= |order|
    ensures GroupIndices(envs[..2 * n], memory) == UpTo(n)
  {
    if n > 0 {
      PairsCountUp(results, devices, envs, order, n - 1, memory);
      assert Carries(envs, results, devices, order[n - 1], n - 1);
      var upper, lower := envs[..2 * n], envs[..2 * n - 1];
      assert upper[..2 * n - 1] == lower && lower[..2 * n - 2] == envs[..2 * (n - 1)];
      assert upper[2 * n - 1] == envs[2 * (n - 1) + 1] && lower[2 * n - 2] == envs[2 * (n - 1)];
      assert UpTo(n) == UpTo(n - 1) + [n - 1];
    }
  }

  /** Every group's variables of either kind are numbered 0, 1, 2, ... */
  lemma GroupCountsUp(results: seq<AllocResult>, devices: map<string, nat>, envs: seq<EnvVar>, order: seq<string>, memory: bool)
    requires GroupOk(results, devices, envs, order)
    ensures GroupIndices(envs, memory) == UpTo(|devices|)
  {
    PairsCountUp(results, devices, envs, order, |order|, memory);
    assert envs[..2 * |order|] == envs;
  }

  lemma OneGroupLess(results: seq<AllocResult>, groups: seq<map<string, nat>>, envs: seq<seq<EnvVar>>, orders: seq<seq<string>>, memory: bool)
    requires ClaimOk(results, groups, envs, orders) && groups != []
    ensures var n := |groups| - 1;
            && ClaimOk(results, groups[..n], envs[..n], orders[..n])
            && ClaimIndices(envs, memory) == ClaimIndices(envs[..n], memory) + UpTo(|groups[n]|)
  {
    var n := |groups| - 1;
    GroupCountsUp(results, groups[n], envs[n], orders[n], memory);
  }

  lemma CountZero(n: nat)
    ensures CountOf(UpTo(n), 0) == if n > 0 then 1 else 0
  {
    if n > 0 {
      var s := UpTo(n);
      assert s == [0] + s[1..];
      assert 0 !in s[1..];
    }
  }

  lemma {:induction false} ZerosAreGroups(results: seq<AllocResult>, groups: seq<map<string, nat>>, envs: seq<seq<EnvVar>>, orders: seq<seq<string>>, memory: bool)
    requires ClaimOk(results, groups, envs, orders)
    ensures CountOf(ClaimIndices(envs, memory), 0) == NonEmpty(groups)
  {
    if groups != [] {
      var n := |groups| - 1;
      OneGroupLess(results, groups, envs, orders, memory);
      ZerosAreGroups(results, groups[..n], envs[..n], orders[..n], memory);
      CountZero(|groups[n]|);
    }
  }

  lemma {:induction false} FewGroups(results: seq<AllocResult>, groups: seq<map<string, nat>>, envs: seq<seq<EnvVar>>, orders: seq<seq<string>>, memory: bool)
    requires ClaimOk(results, groups, envs, orders) && NonEmpty(groups) <= 1
    ensures var s := ClaimIndices(envs, memory); s == UpTo(|s|) && (NonEmpty(groups) == 0 ==> s == [])
  {
    if groups != [] {
      var n := |groups| - 1;
      OneGroupLess(results, groups, envs, orders, memory);
      FewGroups(results, groups[..n], envs[..n], orders[..n], memory);
    }
  }

  lemma {:induction false} UpToOnce(n: nat, i: nat)
    requires i < n
    ensures CountOf(UpTo(n), i) == 1
  {
    var s := UpTo(n);
    assert s == s[..i] + [s[i]] + s[i + 1..];
    assert i !in s[..i] && i !in s[i + 1..];
  }

  /** Whatever ClaimEnvs returns: the SM limits, and the memory limits, of a whole claim carry the indices 0, 1, 2, ... once
      each exactly if at most one config group has devices. */
  lemma IndicesOnceIff(results: seq<AllocResult>, groups: seq<map<string, nat>>, envs: seq<seq<EnvVar>>, orders: seq<seq<string>>, memory: bool)
    requires ClaimOk(results, groups, envs, orders)
    ensures EachOnce(ClaimIndices(envs, memory)) <==> NonEmpty(groups) <= 1
  {
    ZerosAreGroups(results, groups, envs, orders, memory);
    var s := ClaimIndices(envs, memory);
    if NonEmpty(groups) <= 1 {
      FewGroups(results, groups, envs, orders, memory);
      forall i: nat | i < |s| ensures CountOf(s, i) == 1 {
        UpToOnce(|s|, i);
      }
    } else {
      assert |s| > 0 && CountOf(s, 0) != 1;
    }
  }

  /** One group more with one device gives index 0 out once more. */
  lemma OneDeviceMore(results: seq<AllocResult>, groups: seq<map<string, nat>>, envs: seq<seq<EnvVar>>, orders: seq<seq<string>>, memory: bool)
    requires ClaimOk(results, groups, envs, orders) && groups != [] && |groups[|groups| - 1]| == 1
    ensures var n := |groups| - 1;
            && ClaimOk(results, groups[..n], envs[..n], orders[..n])
            && ClaimIndices(envs, memory) == ClaimIndices(envs[..n], memory) + [0] && NonEmpty(groups) == NonEmpty(groups[..n]) + 1
  {
    OneGroupLess(results, groups, envs, orders, memory);
    assert UpTo(1) == [0];
  }

  /** Two requests for one device each, with a config each: ClaimEnvs gives index 0 out twice and index 1 never. */
  lemma TwoGroupsRepeatIndex(results: seq<AllocResult>, groups: seq<map<string, nat>>, envs: seq<seq<EnvVar>>, orders: seq<seq<string>>, memory: bool)
    requires ClaimOk(results, groups, envs, orders) && |groups| == 2 && |groups[0]| == 1 && |groups[1]| == 1
    ensures ClaimIndices(envs, memory) == [0, 0] && !EachOnce(ClaimIndices(envs, memory))
  {
    OneDeviceMore(results, groups, envs, orders, memory);
    assert groups[..1] != [] && groups[..1][0] == groups[0];
    OneDeviceMore(results, groups[..1], envs[..1], orders[..1], memory);
    assert groups[..1][..0] == [] && envs[..1][..0] == [];
    IndicesOnceIff(results, groups, envs, orders, memory);
  }

  // ----------------------------------------------------------- no overcommit

  function MibOf(e: EnvVar): int {
    if e.MemoryLimit? then e.mib else 0
  }

  /** The memory that the first n devices of one group's variables allow on a device. */
  function GroupMiB(envs: seq<EnvVar>, order: seq<string>, n: nat, device: string): int
    requires n <= |order| && |envs| == 2 * |order|
  {
    if n == 0 then 0 else
    GroupMiB(envs, order, n - 1, device) + if order[n - 1] == device then MibOf(envs[2 * (n - 1) + 1]) else 0
  }

  lemma {:induction false} GroupMiBIs(results: seq<AllocResult>, devices: map<string, nat>, envs: seq<EnvVar>, order: seq<string>, n: nat, device: string)
    requires GroupOk(results, devices, envs, order) && n <= |order|
    ensures GroupMiB(envs, order, n, device) == if device in order[..n] then MemoryMiB(results, device, devices[device]) else 0
  {
    if n > 0 {
      var d := order[n - 1];
      GroupMiBIs(results, devices, envs, order, n - 1, device);
      assert Carries(envs, results, devices, d, n - 1);
      assert MibOf(envs[2 * (n - 1) + 1]) == MemoryMiB(results, d, devices[d]);
      assert order[..n] == order[..n - 1] + [d];
      assert d !in order[..n - 1];
    }
  }

  /** The memory that all of a claim's variables allow on a device. */
  function EmittedBy(envs: seq<seq<EnvVar>>, orders: seq<seq<string>>, device: string): int
    requires |envs| == |orders| && forall g :: 0 <= g < |envs| ==> |envs[g]| == 2 * |orders[g]|
  {
    if envs == [] then 0 else
    var n := |envs| - 1;
    EmittedBy(envs[..n], orders[..n], device) + GroupMiB(envs[n], orders[n], |orders[n]|, device)
  }

  /** How many groups hold the device. */
  function Holding(groups: seq<map<string, nat>>, device: string): nat {
    if groups == [] then 0 else Holding(groups[..|groups| - 1], device) + if device in groups[|groups| - 1] then 1 else 0
  }

  /** What a claim emits for a device of the given size: the merged limit, once for every group that holds the device. */
  function ClaimMiB(results: seq<AllocResult>, groups: seq<map<string, nat>>, device: string, bytes: nat): int {
    Holding(groups, device) * MemoryMiB(results, device, bytes)
  }

  lemma GroupEmits(results: seq<AllocResult>, devices: map<string, nat>, envs: seq<EnvVar>, order: seq<string>, device: string, bytes: nat)
    requires GroupOk(results, devices, envs, order) && (device in devices ==> devices[device] == bytes)
    ensures GroupMiB(envs, order, |order|, device) == if device in devices then MemoryMiB(results, device, bytes) else 0
  {
    GroupMiBIs(results, devices, envs, order, |order|, device);
    assert order[..|order|] == order;
  }

  lemma {:induction false} EmittedIs(results: seq<AllocResult>, groups: seq<map<string, nat>>, envs: seq<seq<EnvVar>>, orders: seq<seq<string>>, device: string, bytes: nat)
    requires ClaimOk(results, groups, envs, orders)
    requires forall g :: 0 <= g < |groups| && device in groups[g] ==> groups[g][device] == bytes
    ensures forall g :: 0 <= g < |envs| ==> |envs[g]| == 2 * |orders[g]|
    ensures EmittedBy(envs, orders, device) == ClaimMiB(results, groups, device, bytes)
  {
    assert forall g :: 0 <= g < |groups| ==> GroupOk(results, groups[g], envs[g], orders[g]) && |envs[g]| == 2 * |orders[g]|;
    if groups != [] {
      var n := |groups| - 1;
      EmittedIs(results, groups[..n], envs[..n], orders[..n], device, bytes);
      GroupEmits(results, groups[n], envs[n], orders[n], device, bytes);
      OneGroupMore(results, groups, device, bytes);
    }
  }

  lemma OneGroupMore(results: seq<AllocResult>, groups: seq<map<string, nat>>, device: string, bytes: nat)
    requires groups != []
    ensures var n := |groups| - 1;
            ClaimMiB(results, groups, device, bytes) ==
            ClaimMiB(results, groups[..n], device, bytes) + if device in groups[n] then MemoryMiB(results, device, bytes) else 0
  {
  }

  datatype Use = Use(results: seq<AllocResult>, groups: seq<map<string, nat>>)

  /** The MiB all the given claims are allowed on the device together. */
  function EmittedMiB(uses: seq<Use>, device: string, bytes: nat): int {
    if uses == [] then 0 else
    var last := uses[|uses| - 1];
    EmittedMiB(uses[..|uses| - 1], device, bytes) + ClaimMiB(last.results, last.groups, device, bytes)
  }

  /** The memory capacity that survives the merge, if there is one that is an int64. */
  function Surviving(results: seq<AllocResult>, device: string): Option<int> {
    match LastConsumed(results, device, "memory")
    case Some(Some(v)) => Some(v)
    case _ => None
  }

  /** Whether one claim more fits, given what the other users of the GPU get. With a surviving capacity: if the others leave
      room, and the capacity is less than one MiB above the share of the room that falls to each of the groups holding the
      device (a negative one makes room instead). Without one: only if no group holds the device, or one does and all others get nothing. */
  lemma OneMoreFitsIff(uses: seq<Use>, u: Use, device: string, bytes: nat)
    requires bytes >= MiB && EmittedMiB(uses, device, bytes) >= 0
    ensures var n, room := Holding(u.groups, device), bytes / MiB - EmittedMiB(uses, device, bytes);
            EmittedMiB(uses + [u], device, bytes) <= bytes / MiB <==>
            match Surviving(u.results, device)
            case Some(v) => if v >= 0 then room >= 0 && (n == 0 || v < (room / n + 1) * MiB) else room + n * (-v / MiB) >= 0
            case None => (n == 0 && room >= 0) || (n == 1 && room == bytes / MiB)
  {
    assert (uses + [u])[..|uses|] == uses;
    var n, others, whole := Holding(u.groups, device), EmittedMiB(uses, device, bytes), bytes / MiB;
    assert bytes / 1024 / 1024 == whole >= 1;
    match Surviving(u.results, device)
    case Some(v) => LimitFitsIff(n, whole - others, v);
    case None => WholeFitsIff(n, others, whole);
  }

  /** The limit that a surviving capacity gives, n times. */
  lemma LimitFitsIff(n: nat, room: int, v: int)
    ensures n * Truncate(Truncate(v, 1024), 1024) <= room <==>
            if v >= 0 then room >= 0 && (n == 0 || v < (room / n + 1) * MiB) else room + n * (-v / MiB) >= 0
  {
    if v >= 0 {
      assert Truncate(Truncate(v, 1024), 1024) == v / MiB;
      ShareFitsIff(n, room, v);
    } else {
      NegativeMiB(v);
      var m := -v / MiB;
      assert n * -m == -(n * m);
    }
  }

  lemma NegativeMiB(v: int)
    requires v < 0
    ensures Truncate(Truncate(v, 1024), 1024) == -(-v / MiB)
  {
    assert -v / 1024 / 1024 == -v / MiB;
  }

  /** v bytes, n times in whole MiB. */
  lemma ShareFitsIff(n: nat, room: int, v: nat)
    ensures n * (v / MiB) <= room <==> room >= 0 && (n == 0 || v < (room / n + 1) * MiB)
  {
    var m := v / MiB;
    assert m * MiB <= v < (m + 1) * MiB;
    if n > 0 && room >= 0 {
      var q := room / n;
      assert q * n <= room < (q + 1) * n;
      if m <= q {
        MulMono(m, q, n);
      } else {
        MulMono(q + 1, m, n);
      }
    } else if n > 0 {
      MulMono(0, m, n);
    }
  }

  lemma MulMono(a: nat, b: nat, n: nat)
    requires a <= b
    ensures a * n <= b * n
  {
  }

  /** The whole GPU, n times beside the others. */
  lemma WholeFitsIff(n: nat, others: int, whole: int)
    requires whole >= 1 && others >= 0
    ensures others + n * whole <= whole <==> (n == 0 && others <= whole) || (n == 1 && others == 0)
  {
    if n >= 2 {
      assert n * whole == 2 * whole + (n - 2) * whole && (n - 2) * whole >= 0;
    }
  }

  /** Without a memory capacity in the results the whole GPU is handed out: two such claims overcommit it. */
  lemma MissingCapacityOvercommits(device: string, bytes: nat)
    requires bytes >= MiB
    ensures var claim := Use([AllocResult(DriverName, "", "", device, false, map[])], [map[device := bytes]]);
            EmittedMiB([claim, claim], device, bytes) > bytes / MiB
  {
    var results := [AllocResult(DriverName, "", "", device, false, map[])];
    var claim := Use(results, [map[device := bytes]]);
    assert LastConsumed(results[..0], device, "memory") == None;
    var none: seq<Use> := [];
    assert Holding(claim.groups[..0], device) == 0 && Holding(claim.groups, device) == 1;
    OneMoreFitsIff(none, claim, device, bytes);
    assert none + [claim] == [claim] && [claim][..0] == none;
    assert ClaimMiB(results, claim.groups, device, bytes) == bytes / 1024 / 1024;
    OneMoreFitsIff([claim], claim, device, bytes);
    assert [claim] + [claim] == [claim, claim];
  }

  /** The capacities that survive on a device, over all claims of which a group holds it. */
  function TotalSurviving(uses: seq<Use>, device: string): int {
    if uses == [] then 0 else
    var last := uses[|uses| - 1];
    TotalSurviving(uses[..|uses| - 1], device) +
    if Holding(last.groups, device) > 0 && Surviving(last.results, device).Some? then Surviving(last.results, device).value else 0
  }

  /** A claim that keeps to the rule: at most one of its groups holds the device, and then a capacity survives. */
  predicate Orderly(u: Use, device: string) {
    && Holding(u.groups, device) <= 1
    && (Holding(u.groups, device) == 1 ==> Surviving(u.results, device).Some? && Surviving(u.results, device).value >= 0)
  }

  lemma {:induction false} EmittedWithinSurviving(uses: seq<Use>, device: string, bytes: nat)
    requires forall i :: 0 <= i < |uses| ==> Orderly(uses[i], device)
    ensures EmittedMiB(uses, device, bytes) * MiB <= TotalSurviving(uses, device)
  {
    if uses != [] {
      var last := uses[|uses| - 1];
      EmittedWithinSurviving(uses[..|uses| - 1], device, bytes);
      if Holding(last.groups, device) == 1 {
        var v := Surviving(last.results, device).value;
        assert v / 1024 / 1024 * MiB <= v;
        assert ClaimMiB(last.results, last.groups, device, bytes) == v / 1024 / 1024;
      }
    }
  }

  /** For any number of orderly claims whose surviving capacities fit the GPU, the limits handed out fit it too. Results
      whose capacity does not survive may say anything. */
  lemma NoMemoryOvercommit(uses: seq<Use>, device: string, bytes: nat)
    requires forall i :: 0 <= i < |uses| ==> Orderly(uses[i], device)
    requires TotalSurviving(uses, device) <= bytes
    ensures EmittedMiB(uses, device, bytes) <= bytes / MiB
  {
    EmittedWithinSurviving(uses, device, bytes);
  }

  // ----------------------------------------------- what the scheduler consumed

  /** Memory a claim consumes on a device, over all its results. */
  function ConsumedBytes(results: seq<AllocResult>, device: string): int
    requires MemoryPresent(results, device)
  {
    if results == [] then 0 else
    var last := results[|results| - 1];
    ConsumedBytes(results[..|results| - 1], device) + if last.device == device then last.consumed["memory"].value else 0
  }

  /** Every result on the device states its memory as an int64 that is not negative. */
  predicate MemoryPresent(results: seq<AllocResult>, device: string) {
    forall i :: 0 <= i < |results| && results[i].device == device ==>
      "memory" in results[i].consumed && results[i].consumed["memory"].Some? && results[i].consumed["memory"].value >= 0
  }

  predicate Uses(results: seq<AllocResult>, device: string) {
    exists i :: 0 <= i < |results| && results[i].device == device
  }

  /** The capacity that survives is never more than the results consume together, although the merge keeps one. */
  lemma {:induction false} ClaimLimit(results: seq<AllocResult>, device: string)
    requires MemoryPresent(results, device)
    ensures ConsumedBytes(results, device) >= 0
    ensures Uses(results, device) ==> Surviving(results, device).Some? && 0 <= Surviving(results, device).value <= ConsumedBytes(results, device)
  {
    if results != [] {
      var last, rest := results[|results| - 1], results[..|results| - 1];
      ClaimLimit(rest, device);
      if last.device != device && Uses(results, device) {
        var i :| 0 <= i < |results| && results[i].device == device;
        assert rest[i].device == device;
      }
    }
  }

  /** The results with these amounts of memory, in bytes, as what they consume. */
  function WithMemory(results: seq<AllocResult>, amounts: seq<nat>): (r: seq<AllocResult>)
    requires |amounts| == |results|
    ensures |r| == |results| && forall i :: 0 <= i < |r| ==> r[i] == results[i].(consumed := results[i].consumed["memory" := Some(amounts[i])])
  {
    seq(|results|, i requires 0 <= i < |results| => results[i].(consumed := results[i].consumed["memory" := Some(amounts[i])]))
  }

  lemma WithMemoryPresent(results: seq<AllocResult>, amounts: seq<nat>, device: string)
    requires |amounts| == |results|
    ensures MemoryPresent(WithMemory(results, amounts), device) && (Uses(results, device) ==> Uses(WithMemory(results, amounts), device))
  {
    if i :| 0 <= i < |results| && results[i].device == device {
      assert WithMemory(results, amounts)[i].device == device;
    }
  }

  /** All memory goes to the last result on the device. */
  function LastOnly(results: seq<AllocResult>, device: string): (amounts: seq<nat>)
    ensures |amounts| == |results|
  {
    if results == [] then []
    else if results[|results| - 1].device == device then seq(|results| - 1, i => 0) + [MiB]
    else LastOnly(results[..|results| - 1], device) + [0]
  }

  lemma {:induction false} NothingConsumed(results: seq<AllocResult>, device: string)
    requires MemoryPresent(results, device) && forall i :: 0 <= i < |results| && results[i].device == device ==> results[i].consumed["memory"] == Some(0)
    ensures ConsumedBytes(results, device) == 0
  {
    if results != [] {
      NothingConsumed(results[..|results| - 1], device);
    }
  }

  lemma LastConsumesAll(results: seq<AllocResult>, device: string)
    requires results != [] && results[|results| - 1].device == device
    ensures var r := WithMemory(results, LastOnly(results, device));
            MemoryPresent(r, device) && Surviving(r, device) == Some(MiB) && ConsumedBytes(r, device) == MiB
  {
    var amounts, n := LastOnly(results, device), |results| - 1;
    var r := WithMemory(results, amounts);
    WithMemoryPresent(results, amounts, device);
    NothingConsumed(r[..n], device);
    assert r[n].consumed["memory"] == Some(MiB);
  }

  lemma {:induction false} LastOnlyConsumes(results: seq<AllocResult>, device: string)
    requires Uses(results, device)
    ensures var r := WithMemory(results, LastOnly(results, device));
            MemoryPresent(r, device) && Surviving(r, device) == Some(MiB) && ConsumedBytes(r, device) == MiB
  {
    var n := |results| - 1;
    if results[n].device == device {
      LastConsumesAll(results, device);
    } else {
      var i :| 0 <= i < |results| && results[i].device == device;
      assert results[..n][i].device == device;
      LastOnlyConsumes(results[..n], device);
      LastConsumesNothing(results, device);
    }
  }

  /** A last result on another device changes nothing. */
  lemma LastConsumesNothing(results: seq<AllocResult>, device: string)
    requires results != [] && results[|results| - 1].device != device
    ensures var r, rest := WithMemory(results, LastOnly(results, device)), WithMemory(results[..|results| - 1], LastOnly(results[..|results| - 1], device));
            && MemoryPresent(r, device) && MemoryPresent(rest, device)
            && Surviving(r, device) == Surviving(rest, device) && ConsumedBytes(r, device) == ConsumedBytes(rest, device)
  {
    var n := |results| - 1;
    var r, rest := WithMemory(results, LastOnly(results, device)), WithMemory(results[..n], LastOnly(results[..n], device));
    WithMemoryPresent(results, LastOnly(results, device), device);
    WithMemoryPresent(results[..n], LastOnly(results[..n], device), device);
    assert r[..n] == rest;
  }

  /** With these amounts consumed, what the claim's groups emit for the device stays within what its results consume. */
  predicate StaysWithin(results: seq<AllocResult>, amounts: seq<nat>, groups: seq<map<string, nat>>, device: string, bytes: nat)
    requires |amounts| == |results|
  {
    var r := WithMemory(results, amounts);
    MemoryPresent(r, device) && ClaimMiB(r, groups, device, bytes) * MiB <= ConsumedBytes(r, device)
  }

  /** Whatever memory a claim's results consume on a device, what its groups emit stays within it exactly if at most one
      group holds the device. */
  lemma EmittedWithinConsumedIff(results: seq<AllocResult>, groups: seq<map<string, nat>>, device: string, bytes: nat)
    requires Uses(results, device)
    ensures (forall amounts: seq<nat> :: |amounts| == |results| ==> StaysWithin(results, amounts, groups, device, bytes)) <==> Holding(groups, device) <= 1
  {
    if Holding(groups, device) <= 1 {
      forall amounts: seq<nat> | |amounts| == |results| ensures StaysWithin(results, amounts, groups, device, bytes) {
        OneGroupKeepsWithin(results, groups, device, bytes, amounts);
      }
    } else {
      TwoGroupsExceed(results, groups, device, bytes);
    }
  }

  lemma TwoGroupsExceed(results: seq<AllocResult>, groups: seq<map<string, nat>>, device: string, bytes: nat)
    requires Uses(results, device) && Holding(groups, device) >= 2
    ensures !StaysWithin(results, LastOnly(results, device), groups, device, bytes)
  {
    LastOnlyConsumes(results, device);
    var r := WithMemory(results, LastOnly(results, device));
    assert MemoryMiB(r, device, bytes) == 1;
  }

  lemma OneGroupKeepsWithin(results: seq<AllocResult>, groups: seq<map<string, nat>>, device: string, bytes: nat, amounts: seq<nat>)
    requires Uses(results, device) && Holding(groups, device) <= 1 && |amounts| == |results|
    ensures StaysWithin(results, amounts, groups, device, bytes)
  {
    var r := WithMemory(results, amounts);
    WithMemoryPresent(results, amounts, device);
    ClaimLimit(r, device);
    var v := Surviving(r, device).value;
    assert v / 1024 / 1024 * MiB <= v;
    assert ClaimMiB(r, groups, device, bytes) in {0, v / 1024 / 1024};
  }

  /** One device in two groups of a claim, with 1 MiB and 8 MiB consumed: 9 MiB are consumed and 16 MiB emitted. */
  lemma TwoGroupsEmitTwice(device: string, bytes: nat)
    ensures var r := WithMemory([AllocResult(DriverName, "a", "", device, false, map[]), AllocResult(DriverName, "b", "", device, false, map[])], [MiB, 8 * MiB]);
            var groups := [map[device := bytes], map[device := bytes]];
            MemoryPresent(r, device) && ConsumedBytes(r, device) == 9 * MiB && ClaimMiB(r, groups, device, bytes) == 16
  {
    var results := [AllocResult(DriverName, "a", "", device, false, map[]), AllocResult(DriverName, "b", "", device, false, map[])];
    var r := WithMemory(results, [MiB, 8 * MiB]);
    WithMemoryPresent(results, [MiB, 8 * MiB], device);
    assert r[..1][..0] == [] && r[..1][0] == r[0];
    assert ConsumedBytes(r[..1], device) == MiB;
    var groups := [map[device := bytes], map[device := bytes]];
    assert groups[..1][..0] == [] && Holding(groups[..1], device) == 1;
    assert Holding(groups, device) == 2 && MemoryMiB(r, device, bytes) == 8;
  }
}
