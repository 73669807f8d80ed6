/** Which configuration applies to which allocated device, and the devices a claim is prepared with
    (cmd/hami-kubelet-plugin/device_state.go, prepareDevices and GetOpaqueDeviceConfigs; cdi.go, prepared.go). */
module DeviceConfigs {
  import opened Base
  import opened Claims

  // ------------------------------------------------------- collecting configs

  datatype Source = FromClass | FromClaim | FromElsewhere

  datatype ConfigKind = GpuConfig | MigDeviceConfig | VfioDeviceConfig | ForeignConfig

  /** Opaque parameters: the driver they are for and what decoding them yields, if it succeeds. */
  datatype Opaque = Opaque(driver: string, decoded: Option<ConfigKind>)

  datatype AllocationConfig = AllocationConfig(source: Source, requests: seq<string>, opaque_: Option<Opaque>)

  datatype OpaqueDeviceConfig = OpaqueDeviceConfig(requests: seq<string>, kind: ConfigKind)

  function FromSource(cs: seq<AllocationConfig>, source: Source): seq<AllocationConfig> {
    if cs == [] then []
    else FromSource(cs[..|cs| - 1], source) + if cs[|cs| - 1].source == source then [cs[|cs| - 1]] else []
  }

  predicate Unreadable(c: AllocationConfig, driver: string) {
    c.opaque_.None? || (c.opaque_.value.driver == driver && c.opaque_.value.decoded.None?)
  }

  /** This driver's configs, in order. */
  function Decoded(cs: seq<AllocationConfig>, driver: string): seq<OpaqueDeviceConfig>
    requires forall c :: c in cs ==> !Unreadable(c, driver)
  {
    if cs == [] then [] else
    var c := cs[|cs| - 1];
    assert !Unreadable(c, driver);
    Decoded(cs[..|cs| - 1], driver) + if c.opaque_.value.driver == driver then [OpaqueDeviceConfig(c.requests, c.opaque_.value.decoded.value)] else []
  }

  /** Class configs before claim configs, each in the order given. */
  function Candidates(cs: seq<AllocationConfig>): seq<AllocationConfig> {
    FromSource(cs, FromClass) + FromSource(cs, FromClaim)
  }

  predicate ForeignSource(cs: seq<AllocationConfig>) {
    exists c :: c in cs && c.source == FromElsewhere
  }

  method GetOpaqueDeviceConfigs(driver: string, possible: seq<AllocationConfig>) returns (r: Result<seq<OpaqueDeviceConfig>>)
    ensures r.Err? <==> ForeignSource(possible) || exists c :: c in Candidates(possible) && Unreadable(c, driver)
    ensures r.Ok? ==> r.value == Decoded(Candidates(possible), driver)
  {
    var classConfigs, claimConfigs := [], [];
    for i := 0 to |possible|
      invariant !ForeignSource(possible[..i])
      invariant classConfigs == FromSource(possible[..i], FromClass) && claimConfigs == FromSource(possible[..i], FromClaim)
    {
      assert possible[..i + 1][..i] == possible[..i] && possible[..i + 1] == possible[..i] + [possible[i]];
      assert possible[i] in possible;
      match possible[i].source
      case FromClass => classConfigs := classConfigs + [possible[i]];
      case FromClaim => claimConfigs := claimConfigs + [possible[i]];
      case FromElsewhere => return Err;
    }
    assert possible[..|possible|] == possible;
    var candidates := classConfigs + claimConfigs;
    assert candidates == Candidates(possible);
    var configs := [];
    for i := 0 to |candidates|
      invariant forall c :: c in candidates[..i] ==> !Unreadable(c, driver)
      invariant configs == Decoded(candidates[..i], driver)
    {
      assert candidates[..i + 1][..i] == candidates[..i] && candidates[..i + 1] == candidates[..i] + [candidates[i]];
      var c := candidates[i];
      assert c in candidates;
      if c.opaque_.None? {
        return Err;
      }
      if c.opaque_.value.driver != driver {
        continue;
      }
      if c.opaque_.value.decoded.None? {
        return Err;
      }
      configs := configs + [OpaqueDeviceConfig(c.requests, c.opaque_.value.decoded.value)];
    }
    assert candidates[..|candidates|] == candidates;
    r := Ok(configs);
  }

  /** The defaults, lowest precedence first. */
  function Defaults(passthrough: bool): seq<OpaqueDeviceConfig> {
    (if passthrough then [OpaqueDeviceConfig([], VfioDeviceConfig)] else [])
    + [OpaqueDeviceConfig([], MigDeviceConfig), OpaqueDeviceConfig([], GpuConfig)]
  }

  // -------------------------------------------------------- selecting configs

  predicate Compatible(kind: ConfigKind, t: DeviceType) {
    match kind
    case GpuConfig => t == GpuDevice || t == HamiGpuDevice
    case MigDeviceConfig => t == MigStaticDevice || t == MigDynamicDevice
    case VfioDeviceConfig => t == VfioDevice
    case ForeignConfig => true
  }

  /** A config names the request, or is unrestricted and of the device's type. */
  predicate Applies(c: OpaqueDeviceConfig, request: string, t: DeviceType) {
    request in c.requests || (c.requests == [] && Compatible(c.kind, t))
  }

  ghost predicate IsLastApplicable(configs: seq<OpaqueDeviceConfig>, request: string, t: DeviceType, i: nat) {
    i < |configs| && Applies(configs[i], request, t) && forall j :: i < j < |configs| ==> !Applies(configs[j], request, t)
  }

  datatype Selection = Chosen(index: nat) | Mismatch | NoneApplies

  /** The precedence specification: the last applicable config decides; it is an error exactly when that
      config names the request and does not fit the device. */
  ghost predicate IsSelection(configs: seq<OpaqueDeviceConfig>, request: string, t: DeviceType, s: Selection) {
    match s
    case Chosen(i) => IsLastApplicable(configs, request, t, i) && Compatible(configs[i].kind, t)
    case Mismatch => exists i: nat :: IsLastApplicable(configs, request, t, i) && request in configs[i].requests && !Compatible(configs[i].kind, t)
    case NoneApplies => forall i :: 0 <= i < |configs| ==> !Applies(configs[i], request, t)
  }

  lemma SelectionUnique(configs: seq<OpaqueDeviceConfig>, request: string, t: DeviceType, s: Selection, s': Selection)
    requires IsSelection(configs, request, t, s) && IsSelection(configs, request, t, s')
    ensures s == s'
  {
    if s.Mismatch? && s'.Chosen? {
      var i: nat :| IsLastApplicable(configs, request, t, i) && !Compatible(configs[i].kind, t);
      LastUnique(configs, request, t, i, s'.index);
    } else if s.Chosen? && s'.Mismatch? {
      var i: nat :| IsLastApplicable(configs, request, t, i) && !Compatible(configs[i].kind, t);
      LastUnique(configs, request, t, i, s.index);
    } else if s.Chosen? && s'.Chosen? {
      LastUnique(configs, request, t, s.index, s'.index);
    }
  }

  lemma LastUnique(configs: seq<OpaqueDeviceConfig>, request: string, t: DeviceType, i: nat, k: nat)
    requires IsLastApplicable(configs, request, t, i) && IsLastApplicable(configs, request, t, k)
    ensures i == k
  {
  }

  /** The backward search, first named then unrestricted, as the code walks the list. */
  method Select(configs: seq<OpaqueDeviceConfig>, request: string, t: DeviceType) returns (s: Selection)
    ensures IsSelection(configs, request, t, s)
  {
    var i := |configs|;
    while i > 0
      invariant 0 <= i <= |configs|
      invariant forall j :: i <= j < |configs| ==> !Applies(configs[j], request, t)
    {
      i := i - 1;
      var c := configs[i];
      if request in c.requests {
        assert IsLastApplicable(configs, request, t, i);
        return if Compatible(c.kind, t) then Chosen(i) else Mismatch;
      }
      if |c.requests| == 0 {
        if !Compatible(c.kind, t) {
          continue;
        }
        return Chosen(i);
      }
    }
    s := NoneApplies;
  }

  /** With the defaults in front, a GPU, HAMi GPU or MIG device always finds a config; so does a
      passthrough device when passthrough is enabled. */
  lemma SomeConfigApplies(passthrough: bool, configs: seq<OpaqueDeviceConfig>, request: string, t: DeviceType, s: Selection)
    requires IsSelection(Defaults(passthrough) + configs, request, t, s)
    requires t == VfioDevice ==> passthrough
    ensures s != NoneApplies
  {
    var all := Defaults(passthrough) + configs;
    var n := |Defaults(passthrough)|;
    assert all[n - 1] == OpaqueDeviceConfig([], GpuConfig) && all[n - 2] == OpaqueDeviceConfig([], MigDeviceConfig);
    assert passthrough ==> all[0] == OpaqueDeviceConfig([], VfioDeviceConfig);
    assert exists i :: 0 <= i < |all| && Applies(all[i], request, t);
  }

  // ------------------------------------------------------- preparing devices

  const CdiKind := "k8s." + DriverName + "/claim="

  function ClaimDeviceName(claimUid: string, canonicalName: string): string {
    claimUid + "-" + canonicalName
  }

  function PreparedOf(claimUid: string, r: AllocResult, a: Allocatable): PreparedDevice {
    PreparedDevice(a.deviceType, r.request, r.pool, r.device, a.canonicalName, CdiKind + ClaimDeviceName(claimUid, a.canonicalName), None)
  }

  /** prepared.go: a MIG device is known by the name it was allocated under, any other by its own. */
  function PreparedName(p: PreparedDevice): string {
    if p.deviceType in {MigStaticDevice, MigDynamicDevice} then p.device else p.infoName
  }

  datatype Request = Request(uid: Uid, results: seq<AllocResult>, allocatable: map<string, Allocatable>, healthCheck: bool)

  /** The results this driver must prepare. */
  predicate Ours(q: Request, j: nat) {
    j < |q.results| && q.results[j].driver == DriverName
  }

  predicate Usable(q: Request, j: nat)
    requires j < |q.results|
  {
    var d := q.results[j].device;
    d in q.allocatable && (q.healthCheck ==> q.allocatable[d].healthy)
  }

  function TypeOf(q: Request, j: nat): DeviceType
    requires j < |q.results| && Usable(q, j)
  {
    q.allocatable[q.results[j].device].deviceType
  }

  ghost predicate Selects(q: Request, configs: seq<OpaqueDeviceConfig>, j: nat, s: Selection) {
    j < |q.results| && Usable(q, j) && IsSelection(configs, q.results[j].request, TypeOf(q, j), s)
  }

  /** Groups of result indices by config: result j, for j below n, is in the group of the config selected for it,
      once, and in no other. */
  ghost predicate IsGrouping(q: Request, configs: seq<OpaqueDeviceConfig>, groups: map<nat, seq<nat>>, n: nat) {
    MembersOk(q, configs, groups, n) && Ascending(groups) && Covering(q, configs, groups, n)
  }

  ghost predicate MembersOk(q: Request, configs: seq<OpaqueDeviceConfig>, groups: map<nat, seq<nat>>, n: nat) {
    forall c, k :: c in groups && 0 <= k < |groups[c]| ==> groups[c][k] < n && Ours(q, groups[c][k]) && Selects(q, configs, groups[c][k], Chosen(c))
  }

  predicate Ascending(groups: map<nat, seq<nat>>) {
    forall c, k, l :: c in groups && 0 <= k < l < |groups[c]| ==> groups[c][k] < groups[c][l]
  }

  ghost predicate Covering(q: Request, configs: seq<OpaqueDeviceConfig>, groups: map<nat, seq<nat>>, n: nat) {
    forall j :: 0 <= j < n && Ours(q, j) ==> Selects(q, configs, j, NoneApplies) || exists c :: c in groups && j in groups[c]
  }

  predicate NoneEmpty(groups: map<nat, seq<nat>>) {
    forall c :: c in groups ==> groups[c] != []
  }

  ghost predicate Blocks(q: Request, configs: seq<OpaqueDeviceConfig>, j: nat) {
    Ours(q, j) && (!Usable(q, j) || Selects(q, configs, j, Mismatch))
  }

  /** One result of the mapping loop: it is passed over, put into the group of its config, or an error. */
  method GroupOne(q: Request, configs: seq<OpaqueDeviceConfig>, groups: map<nat, seq<nat>>, j: nat) returns (r: Result<map<nat, seq<nat>>>)
    requires j < |q.results| && IsGrouping(q, configs, groups, j) && NoneEmpty(groups)
    ensures r.Err? <==> Blocks(q, configs, j)
    ensures r.Ok? ==> IsGrouping(q, configs, r.value, j + 1) && NoneEmpty(r.value)
  {
    var res := q.results[j];
    if res.driver != DriverName {
      GroupingSkips(q, configs, groups, j);
      return Ok(groups);
    }
    if res.device !in q.allocatable || (q.healthCheck && !q.allocatable[res.device].healthy) {
      return Err;
    }
    var s := Select(configs, res.request, q.allocatable[res.device].deviceType);
    assert Selects(q, configs, j, s);
    if s == Mismatch {
      return Err;
    }
    if Selects(q, configs, j, Mismatch) {
      SelectionUnique(configs, res.request, TypeOf(q, j), s, Mismatch);
    }
    if s == NoneApplies {
      GroupingSkips(q, configs, groups, j);
      return Ok(groups);
    }
    GroupingExtends(q, configs, groups, j, s.index);
    r := Ok(groups[s.index := (if s.index in groups then groups[s.index] else []) + [j]]);
  }

  /** The mapping loop of prepareDevices. It fails exactly when some result of this driver names a device
      that cannot be used or a config that does not fit it. */
  method GroupByConfig(q: Request, configs: seq<OpaqueDeviceConfig>) returns (r: Result<map<nat, seq<nat>>>)
    ensures r.Err? <==> exists j :: Blocks(q, configs, j)
    ensures r.Ok? ==> IsGrouping(q, configs, r.value, |q.results|) && NoneEmpty(r.value)
  {
    var groups: map<nat, seq<nat>> := map[];
    for j := 0 to |q.results|
      invariant IsGrouping(q, configs, groups, j) && NoneEmpty(groups)
      invariant forall i :: 0 <= i < j ==> !Blocks(q, configs, i)
    {
      var next := GroupOne(q, configs, groups, j);
      if next.Err? {
        return Err;
      }
      groups := next.value;
    }
    r := Ok(groups);
  }

  lemma GroupingSkips(q: Request, configs: seq<OpaqueDeviceConfig>, groups: map<nat, seq<nat>>, j: nat)
    requires IsGrouping(q, configs, groups, j) && (!Ours(q, j) || Selects(q, configs, j, NoneApplies))
    ensures IsGrouping(q, configs, groups, j + 1)
  {
  }

  /** Result j joins the group of config c. */
  function Joined(groups: map<nat, seq<nat>>, c: nat, j: nat): map<nat, seq<nat>> {
    groups[c := (if c in groups then groups[c] else []) + [j]]
  }

  lemma GroupingExtends(q: Request, configs: seq<OpaqueDeviceConfig>, groups: map<nat, seq<nat>>, j: nat, c: nat)
    requires IsGrouping(q, configs, groups, j) && Ours(q, j) && Selects(q, configs, j, Chosen(c))
    ensures IsGrouping(q, configs, Joined(groups, c, j), j + 1)
  {
    MembersExtend(q, configs, groups, j, c);
    OrderExtends(q, configs, groups, j, c);
    CoverExtends(q, configs, groups, j, c);
  }

  lemma MembersExtend(q: Request, configs: seq<OpaqueDeviceConfig>, groups: map<nat, seq<nat>>, j: nat, c: nat)
    requires MembersOk(q, configs, groups, j) && Ours(q, j) && Selects(q, configs, j, Chosen(c))
    ensures MembersOk(q, configs, Joined(groups, c, j), j + 1)
  {
    var groups' := Joined(groups, c, j);
    forall d, k | d in groups' && 0 <= k < |groups'[d]|
      ensures groups'[d][k] < j + 1 && Ours(q, groups'[d][k]) && Selects(q, configs, groups'[d][k], Chosen(d))
    {
      if d == c && k == |groups'[c]| - 1 {
        assert groups'[d][k] == j;
      } else {
        assert d in groups && groups'[d][k] == groups[d][k];
      }
    }
  }

  lemma OrderExtends(q: Request, configs: seq<OpaqueDeviceConfig>, groups: map<nat, seq<nat>>, j: nat, c: nat)
    requires MembersOk(q, configs, groups, j) && Ascending(groups)
    ensures Ascending(Joined(groups, c, j))
  {
    var groups' := Joined(groups, c, j);
    forall d, k, l | d in groups' && 0 <= k < l < |groups'[d]| ensures groups'[d][k] < groups'[d][l] {
      assert d in groups && groups'[d][k] == groups[d][k];
    }
  }

  lemma CoverExtends(q: Request, configs: seq<OpaqueDeviceConfig>, groups: map<nat, seq<nat>>, j: nat, c: nat)
    requires Covering(q, configs, groups, j)
    ensures Covering(q, configs, Joined(groups, c, j), j + 1)
  {
    var groups' := Joined(groups, c, j);
    assert groups'[c][|groups'[c]| - 1] == j;
    forall i | 0 <= i < j + 1 && Ours(q, i) && !Selects(q, configs, i, NoneApplies) ensures exists d :: d in groups' && i in groups'[d] {
      if i == j {
        assert c in groups' && j in groups'[c];
      } else {
        var d :| d in groups && i in groups[d];
        assert d in groups' && i in groups'[d];
      }
    }
  }

  function Flat(groups: seq<seq<PreparedDevice>>): seq<PreparedDevice> {
    if groups == [] then [] else Flat(groups[..|groups| - 1]) + groups[|groups| - 1]
  }

  /** What the prepared devices are: device i stands for result picked[i]; every result of this driver that a
      config applies to is picked once. */
  ghost predicate Conserves(q: Request, configs: seq<OpaqueDeviceConfig>, devices: seq<PreparedDevice>, picked: seq<nat>) {
    && |devices| == |picked|
    && (forall i :: 0 <= i < |picked| ==> Represents(q, devices[i], picked[i]))
    && (forall i, k :: 0 <= i < k < |picked| ==> picked[i] != picked[k])
    && (forall j :: Ours(q, j) ==> Selects(q, configs, j, NoneApplies) || j in picked)
  }

  ghost predicate TakenFrom(groups: map<nat, seq<nat>>, todo: set<nat>, j: nat) {
    exists c :: c in groups && c !in todo && j in groups[c]
  }

  /** The devices of one group. Creating a MIG device may fail. */
  method BuildGroup(q: Request, indices: seq<nat>) returns (r: Result<seq<PreparedDevice>>)
    requires forall k :: 0 <= k < |indices| ==> Ours(q, indices[k]) && Usable(q, indices[k])
    ensures r.Ok? ==> RepresentAll(q, r.value, indices)
  {
    var group: seq<PreparedDevice> := [];
    for k := 0 to |indices|
      invariant |group| == k && forall i :: 0 <= i < k ==> Represents(q, group[i], indices[i])
    {
      var res := q.results[indices[k]];
      var adev := q.allocatable[res.device];
      var cdiId := CdiKind + ClaimDeviceName(q.uid, adev.canonicalName);
      var live := None;
      if adev.deviceType in {MigStaticDevice, MigDynamicDevice} {
        live := *;
      }
      if adev.deviceType == MigDynamicDevice && live.None? {
        return Err;
      }
      group := group + [PreparedDevice(adev.deviceType, res.request, res.pool, res.device, adev.canonicalName, cdiId, live)];
    }
    r := Ok(group);
  }

  predicate Distinct(s: seq<nat>) {
    forall i, k :: 0 <= i < k < |s| ==> s[i] != s[k]
  }

  lemma DistinctConcat(s: seq<nat>, t: seq<nat>)
    requires Distinct(s) && Distinct(t) && forall i :: 0 <= i < |s| ==> s[i] !in t
    ensures Distinct(s + t)
  {
    forall i, k | 0 <= i < k < |s + t| ensures (s + t)[i] != (s + t)[k] {
      if i < |s| <= k {
        assert (s + t)[k] == t[k - |s|] && t[k - |s|] in t;
      }
    }
  }

  /** The results picked so far: those of the groups that are not left to do, each once. */
  ghost predicate PickedSoFar(groups: map<nat, seq<nat>>, todo: set<nat>, picked: seq<nat>) {
    && (forall i :: 0 <= i < |picked| ==> TakenFrom(groups, todo, picked[i]))
    && (forall c, k :: c in groups && c !in todo && 0 <= k < |groups[c]| ==> groups[c][k] in picked)
    && Distinct(picked)
  }

  lemma NotYetPicked(q: Request, configs: seq<OpaqueDeviceConfig>, groups: map<nat, seq<nat>>, todo: set<nat>, c: nat, j: nat)
    requires IsGrouping(q, configs, groups, |q.results|) && c in groups && c in todo && TakenFrom(groups, todo, j)
    ensures j !in groups[c]
  {
    var d :| d in groups && d !in todo && j in groups[d];
    GroupsDisjoint(q, configs, groups, c, d, j);
  }

  lemma StillTaken(groups: map<nat, seq<nat>>, todo: set<nat>, c: nat, j: nat)
    requires TakenFrom(groups, todo, j)
    ensures TakenFrom(groups, todo - {c}, j)
  {
    var d :| d in groups && d !in todo && j in groups[d];
    assert d !in todo - {c};
  }

  /** The next group is new and lists nothing twice, so it can be picked. */
  lemma GroupPicked(q: Request, configs: seq<OpaqueDeviceConfig>, groups: map<nat, seq<nat>>, todo: set<nat>, c: nat, picked: seq<nat>)
    requires IsGrouping(q, configs, groups, |q.results|) && PickedSoFar(groups, todo, picked) && c in groups && c in todo
    ensures PickedSoFar(groups, todo - {c}, picked + groups[c])
  {
    var rest, all, n := todo - {c}, picked + groups[c], |picked|;
    forall i | 0 <= i < n ensures picked[i] !in groups[c] {
      NotYetPicked(q, configs, groups, todo, c, picked[i]);
    }
    forall i | 0 <= i < |all| ensures TakenFrom(groups, rest, all[i]) {
      if i < n {
        StillTaken(groups, todo, c, picked[i]);
      } else {
        assert c !in rest && all[i] == groups[c][i - n];
      }
    }
    assert Distinct(groups[c]);
    DistinctConcat(picked, groups[c]);
  }

  /** When no group is left, every result that has a config is picked. */
  lemma AllPicked(q: Request, configs: seq<OpaqueDeviceConfig>, groups: map<nat, seq<nat>>, picked: seq<nat>)
    requires IsGrouping(q, configs, groups, |q.results|) && PickedSoFar(groups, {}, picked)
    ensures forall j :: Ours(q, j) ==> Selects(q, configs, j, NoneApplies) || j in picked
    ensures forall i :: 0 <= i < |picked| ==> Ours(q, picked[i])
  {
    forall j | Ours(q, j) && !Selects(q, configs, j, NoneApplies) ensures j in picked {
      var c :| c in groups && j in groups[c];
    }
    forall i | 0 <= i < |picked| ensures Ours(q, picked[i]) {
      assert TakenFrom(groups, {}, picked[i]);
      var d :| d in groups && picked[i] in groups[d];
    }
  }

  lemma FlatSnoc(groups: seq<seq<PreparedDevice>>, group: seq<PreparedDevice>)
    ensures Flat(groups + [group]) == Flat(groups) + group
  {
    assert (groups + [group])[..|groups|] == groups;
  }

  /** The second loop of prepareDevices, over the groups in any order. */
  method BuildDevices(q: Request, configs: seq<OpaqueDeviceConfig>, groups: map<nat, seq<nat>>) returns (r: Result<seq<seq<PreparedDevice>>>, ghost picked: seq<nat>)
    requires IsGrouping(q, configs, groups, |q.results|)
    ensures r.Ok? ==> |r.value| == |groups| && Conserves(q, configs, Flat(r.value), picked)
  {
    var built: seq<seq<PreparedDevice>> := [];
    picked := [];
    var todo := groups.Keys;
    while todo != {}
      invariant todo <= groups.Keys && |built| + |todo| == |groups|
      invariant PickedSoFar(groups, todo, picked) && RepresentAll(q, Flat(built), picked)
    {
      var c :| c in todo;
      var group := BuildGroup(q, groups[c]);
      if group.Err? {
        return Err, picked;
      }
      GroupPicked(q, configs, groups, todo, c, picked);
      FlatSnoc(built, group.value);
      RepresentMore(q, Flat(built), picked, group.value, groups[c]);
      todo := todo - {c};
      built := built + [group.value];
      picked := picked + groups[c];
    }
    AllPicked(q, configs, groups, picked);
    r := Ok(built);
  }

  /** The order lists the picked results. */
  predicate Lists(q: Request, order: seq<AllocResult>, picked: seq<nat>) {
    |order| == |picked| && forall i :: 0 <= i < |picked| ==> picked[i] < |q.results| && order[i] == q.results[picked[i]]
  }

  lemma ListsMore(q: Request, order: seq<AllocResult>, picked: seq<nat>, more: seq<AllocResult>, indices: seq<nat>)
    requires Lists(q, order, picked) && Lists(q, more, indices)
    ensures Lists(q, order + more, picked + indices)
  {
  }

  method ListGroup(q: Request, indices: seq<nat>) returns (more: seq<AllocResult>)
    requires forall k :: 0 <= k < |indices| ==> indices[k] < |q.results|
    ensures Lists(q, more, indices)
  {
    more := [];
    for k := 0 to |indices|
      invariant Lists(q, more, indices[..k])
    {
      more := more + [q.results[indices[k]]];
    }
    assert indices[..|indices|] == indices;
  }

  /** The results of the groups one after the other, in any order of the groups. */
  method ListResults(q: Request, configs: seq<OpaqueDeviceConfig>, groups: map<nat, seq<nat>>) returns (order: seq<AllocResult>, ghost picked: seq<nat>)
    requires IsGrouping(q, configs, groups, |q.results|)
    ensures Lists(q, order, picked) && Distinct(picked) && (groups == map[] ==> order == [])
    ensures forall i :: 0 <= i < |picked| ==> Ours(q, picked[i])
    ensures forall j :: Ours(q, j) ==> Selects(q, configs, j, NoneApplies) || j in picked
  {
    order, picked := [], [];
    var todo := groups.Keys;
    while todo != {}
      invariant todo <= groups.Keys && PickedSoFar(groups, todo, picked) && Lists(q, order, picked) && (groups == map[] ==> order == [])
    {
      var c :| c in todo;
      GroupPicked(q, configs, groups, todo, c, picked);
      var more := ListGroup(q, groups[c]);
      ListsMore(q, order, picked, more, groups[c]);
      todo := todo - {c};
      order, picked := order + more, picked + groups[c];
    }
    AllPicked(q, configs, groups, picked);
  }

  lemma {:induction false} OwnSnoc(results: seq<AllocResult>, r: AllocResult)
    ensures Own(results + [r]) == Own(results) + (if r.driver == DriverName then [r] else [])
  {
    var more := results + [r];
    if results == [] {
      assert more == [r] && [r][1..] == [];
    } else {
      assert more[0] == results[0] && more[1..] == results[1..] + [r];
      OwnSnoc(results[1..], r);
      var head := if results[0].driver == DriverName then [results[0]] else [];
      assert Own(more) == head + Own(more[1..]) && Own(results) == head + Own(results[1..]);
    }
  }

  /** Leaving out one position leaves out one number. */
  lemma PickedWithout(picked: seq<nat>, p: nat)
    requires Distinct(picked) && p < |picked|
    ensures var rest := picked[..p] + picked[p + 1..]; Distinct(rest) && forall j: nat :: j in rest <==> j in picked && j != picked[p]
  {
    var rest := picked[..p] + picked[p + 1..];
    forall j: nat | j in picked && j != picked[p] ensures j in rest {
      var i :| 0 <= i < |picked| && picked[i] == j;
      assert rest[if i < p then i else i - 1] == j;
    }
    forall j: nat | j in rest ensures j in picked && j != picked[p] {
      var i :| 0 <= i < |rest| && rest[i] == j;
      assert picked[if i < p then i else i + 1] == j;
    }
  }

  /** The last result is this driver's, picked at position p. */
  lemma {:induction false} PicksWithoutLast(results: seq<AllocResult>, order: seq<AllocResult>, picked: seq<nat>, p: nat)
    requires results != [] && PicksOwn(results, order, picked) && p < |picked| && picked[p] == |results| - 1
    ensures PicksOwn(results[..|results| - 1], order[..p] + order[p + 1..], picked[..p] + picked[p + 1..])
  {
    var rest, picked', order' := results[..|results| - 1], picked[..p] + picked[p + 1..], order[..p] + order[p + 1..];
    PickedWithout(picked, p);
    forall i | 0 <= i < |picked'| ensures picked'[i] < |rest| && order'[i] == rest[picked'[i]] {
      assert picked'[i] in picked' && picked'[i] == picked[if i < p then i else i + 1];
    }
  }

  /** The last result is another driver's. */
  lemma PicksBeforeLast(results: seq<AllocResult>, order: seq<AllocResult>, picked: seq<nat>)
    requires results != [] && PicksOwn(results, order, picked) && results[|results| - 1].driver != DriverName
    ensures PicksOwn(results[..|results| - 1], order, picked)
  {
    forall i | 0 <= i < |picked| ensures picked[i] < |results| - 1 {
      assert picked[i] in picked;
    }
  }

  /** Each result of this driver, and nothing else, is picked once. */
  ghost predicate PicksOwn(results: seq<AllocResult>, order: seq<AllocResult>, picked: seq<nat>) {
    && |order| == |picked| && Distinct(picked)
    && (forall i :: 0 <= i < |picked| ==> picked[i] < |results| && order[i] == results[picked[i]])
    && forall j: nat :: j in picked <==> j < |results| && results[j].driver == DriverName
  }

  lemma {:induction false} OwnSnocCounts(rest: seq<AllocResult>, last: AllocResult)
    ensures multiset(Own(rest + [last])) == multiset(Own(rest)) + if last.driver == DriverName then multiset{last} else multiset{}
  {
    OwnSnoc(rest, last);
  }

  lemma {:induction false} OwnLast(results: seq<AllocResult>)
    requires results != []
    ensures var last := results[|results| - 1];
            multiset(Own(results)) == multiset(Own(results[..|results| - 1])) + if last.driver == DriverName then multiset{last} else multiset{}
  {
    var rest, last := results[..|results| - 1], results[|results| - 1];
    OwnSnocCounts(rest, last);
    assert results == rest + [last];
  }

  lemma {:induction false} TakeOut(order: seq<AllocResult>, p: nat)
    requires p < |order|
    ensures multiset(order) == multiset(order[..p] + order[p + 1..]) + multiset{order[p]}
  {
    assert order == order[..p] + [order[p]] + order[p + 1..];
  }

  lemma LastIsPicked(results: seq<AllocResult>, order: seq<AllocResult>, picked: seq<nat>) returns (p: nat)
    requires results != [] && PicksOwn(results, order, picked) && results[|results| - 1].driver == DriverName
    ensures p < |picked| && picked[p] == |results| - 1 && p < |order| && order[p] == results[|results| - 1]
  {
    var n: nat := |results| - 1;
    assert n in picked;
    p :| 0 <= p < |picked| && picked[p] == n;
  }

  /** Results picked once each, and this driver's all of them, are this driver's results in some order. */
  lemma {:induction false} PickedIsOwn(results: seq<AllocResult>, order: seq<AllocResult>, picked: seq<nat>)
    requires PicksOwn(results, order, picked)
    ensures multiset(order) == multiset(Own(results))
    decreases |results|
  {
    assert picked == [] || picked[0] in picked;
    if results != [] {
      OwnLast(results);
      if results[|results| - 1].driver == DriverName {
        var p := LastIsPicked(results, order, picked);
        PicksWithoutLast(results, order, picked, p);
        PickedIsOwn(results[..|results| - 1], order[..p] + order[p + 1..], picked[..p] + picked[p + 1..]);
        TakeOut(order, p);
      } else {
        PicksBeforeLast(results, order, picked);
        PickedIsOwn(results[..|results| - 1], order, picked);
      }
    }
  }

  /** With the defaults in front, the results listed are this driver's, in some order. */
  lemma ListedAreOwn(q: Request, passthrough: bool, own: seq<OpaqueDeviceConfig>, order: seq<AllocResult>, picked: seq<nat>)
    requires passthrough || forall d :: d in q.allocatable ==> q.allocatable[d].deviceType != VfioDevice
    requires Lists(q, order, picked) && Distinct(picked) && forall i :: 0 <= i < |picked| ==> Ours(q, picked[i])
    requires forall j :: Ours(q, j) ==> Selects(q, Defaults(passthrough) + own, j, NoneApplies) || j in picked
    ensures multiset(order) == multiset(Own(q.results)) && (order == [] ==> Own(q.results) == [])
  {
    forall j: nat ensures j in picked <==> j < |q.results| && q.results[j].driver == DriverName {
      if Ours(q, j) && Selects(q, Defaults(passthrough) + own, j, NoneApplies) {
        SomeConfigApplies(passthrough, own, q.results[j].request, TypeOf(q, j), NoneApplies);
      }
    }
    PickedIsOwn(q.results, order, picked);
    assert |multiset(order)| == |multiset(Own(q.results))|;
  }

  /** Grouping refuses a claim with a result of this driver that is not announced. */
  lemma OwnAreUsable(q: Request, configs: seq<OpaqueDeviceConfig>)
    requires forall j :: !Blocks(q, configs, j)
    ensures forall r :: r in Own(q.results) ==> r.device in q.allocatable
  {
    forall r | r in Own(q.results) ensures r.device in q.allocatable {
      var j :| 0 <= j < |q.results| && q.results[j] == r;
      assert !Blocks(q, configs, j);
    }
  }

  /** There is a group only if there is a result of this driver. */
  lemma GroupedMeansOwn(q: Request, configs: seq<OpaqueDeviceConfig>, groups: map<nat, seq<nat>>)
    requires IsGrouping(q, configs, groups, |q.results|) && NoneEmpty(groups)
    ensures groups != map[] ==> Own(q.results) != []
  {
    if c :| c in groups {
      assert Ours(q, groups[c][0]);
      assert q.results[groups[c][0]] in Own(q.results);
    }
  }

  ghost predicate RepresentAll(q: Request, devices: seq<PreparedDevice>, picked: seq<nat>) {
    |devices| == |picked| && forall i :: 0 <= i < |picked| ==> Represents(q, devices[i], picked[i])
  }

  lemma RepresentMore(q: Request, devices: seq<PreparedDevice>, picked: seq<nat>, more: seq<PreparedDevice>, indices: seq<nat>)
    requires RepresentAll(q, devices, picked) && RepresentAll(q, more, indices)
    ensures RepresentAll(q, devices + more, picked + indices)
  {
  }

  ghost predicate Represents(q: Request, p: PreparedDevice, j: nat) {
    Ours(q, j) && Usable(q, j) && p.(live := None) == PreparedOf(q.uid, q.results[j], q.allocatable[q.results[j].device])
  }

  lemma GroupsDisjoint(q: Request, configs: seq<OpaqueDeviceConfig>, groups: map<nat, seq<nat>>, c: nat, d: nat, j: nat)
    requires IsGrouping(q, configs, groups, |q.results|) && c in groups && d in groups && c != d && j in groups[d]
    ensures j !in groups[c]
  {
    if j in groups[c] {
      SelectionUnique(configs, q.results[j].request, TypeOf(q, j), Chosen(c), Chosen(d));
    }
  }

  /** prepareDevices, for every outcome of the steps that touch the outside and every map iteration order. */
  method PrepareDevices(q: Request, passthrough: bool, possible: seq<AllocationConfig>) returns (r: Result<seq<seq<PreparedDevice>>>, ghost picked: seq<nat>)
    ensures r.Ok? ==> (forall c :: c in Candidates(possible) ==> !Unreadable(c, DriverName))
                      && var configs := Defaults(passthrough) + Decoded(Candidates(possible), DriverName);
                         Conserves(q, configs, Flat(r.value), picked) && forall j :: !Blocks(q, configs, j)
  {
    picked := [];
    var own := GetOpaqueDeviceConfigs(DriverName, possible);
    if own.Err? {
      return Err, picked;
    }
    var configs := Defaults(passthrough) + own.value;
    var grouped := GroupByConfig(q, configs);
    if grouped.Err? {
      return Err, picked;
    }
    var todo := grouped.value.Keys;
    while todo != {}
    {
      var c :| c in todo;
      todo := todo - {c};
      var fails := *;  // normalising, validating or applying the config
      if fails || (c < |configs| && configs[c].kind == ForeignConfig) {
        return Err, picked;
      }
    }
    r, picked := BuildDevices(q, configs, grouped.value);
  }

  /** Preparation conserves results: the devices are the results of this driver, each once, provided that
      passthrough devices are only allocated while passthrough is enabled. */
  lemma PreparationConservesResults(q: Request, passthrough: bool, own: seq<OpaqueDeviceConfig>, devices: seq<PreparedDevice>, picked: seq<nat>)
    requires Conserves(q, Defaults(passthrough) + own, devices, picked)
    requires forall j :: Ours(q, j) && Usable(q, j) && TypeOf(q, j) == VfioDevice ==> passthrough
    ensures forall j: nat :: Ours(q, j) <==> j in picked
    ensures |devices| == |picked| && forall i, k :: 0 <= i < k < |picked| ==> picked[i] != picked[k]
    ensures forall i :: 0 <= i < |devices| ==>
              var r := q.results[picked[i]]; devices[i].request == r.request && devices[i].pool == r.pool && devices[i].device == r.device
  {
    forall j: nat | Ours(q, j) ensures j in picked {
      if Selects(q, Defaults(passthrough) + own, j, NoneApplies) {
        SomeConfigApplies(passthrough, own, q.results[j].request, TypeOf(q, j), NoneApplies);
      }
    }
  }

  // ------------------------------------------------------------ the CDI spec

  /** The device names of a claim's CDI spec. */
  function SpecNames(uid: string, devices: seq<PreparedDevice>): (names: seq<string>)
    ensures |names| == |devices| && forall i :: 0 <= i < |names| ==> names[i] == ClaimDeviceName(uid, PreparedName(devices[i]))
  {
    seq(|devices|, i requires 0 <= i < |devices| => ClaimDeviceName(uid, PreparedName(devices[i])))
  }

  /** The naming part of CreateClaimSpecFile. */
  method CreateClaimSpecFile(uid: string, groups: seq<seq<PreparedDevice>>) returns (r: Result<seq<string>>)
    ensures r.Ok? ==> r.value == SpecNames(uid, Flat(groups))
  {
    var names: seq<string> := [];
    for g := 0 to |groups|
      invariant names == SpecNames(uid, Flat(groups[..g]))
    {
      assert groups[..g + 1][..g] == groups[..g];
      ghost var before := names;
      for d := 0 to |groups[g]|
        invariant names == before + SpecNames(uid, groups[g][..d])
      {
        if * {
          return Err;  // no cached device spec, or the MIG device nodes cannot be worked out
        }
        names := names + [ClaimDeviceName(uid, PreparedName(groups[g][d]))];
      }
      assert groups[g][..|groups[g]|] == groups[g];
    }
    assert groups[..|groups|] == groups;
    if * {
      return Err;
    }
    r := Ok(names);
  }

  /** Every CDI id returned for a claim names an entry of that claim's spec, provided allocatable devices
      are keyed by their canonical names. */
  lemma CdiIdsResolve(q: Request, configs: seq<OpaqueDeviceConfig>, devices: seq<PreparedDevice>, picked: seq<nat>)
    requires Conserves(q, configs, devices, picked)
    requires forall d :: d in q.allocatable ==> q.allocatable[d].canonicalName == d
    ensures forall i :: 0 <= i < |devices| ==> devices[i].cdiId == CdiKind + SpecNames(q.uid, devices)[i]
  {
    forall i | 0 <= i < |devices| ensures devices[i].cdiId == CdiKind + SpecNames(q.uid, devices)[i] {
      assert Represents(q, devices[i], picked[i]);
    }
  }
}
