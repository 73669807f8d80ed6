/** MIG hardware as NVML shows it, and the device library that creates, finds and deletes MIG
    devices on it (cmd/hami-kubelet-plugin/nvlib.go). */
module Nvlib {
  import opened Base
  import opened MigNames

  datatype GiKey = GiKey(gpu: nat, id: nat)

  /** A GPU instance: profile, placement, and the compute instance inside it, if any. */
  datatype Gi = Gi(profileId: nat, start: nat, size: nat, ci: Option<nat>)

  datatype Hw = Hw(gis: map<GiKey, Gi>, on: set<nat>)

  /** What the plugin remembers of a live MIG device. */
  datatype LiveTuple = LiveTuple(gpu: nat, gi: nat, ci: nat) {
    function Key(): GiKey {
      GiKey(gpu, gi)
    }
  }

  /** Profile strings: a function of GPU and profile id. */
  type Profiles = (nat, nat) -> string

  predicate Overlap(a: Gi, b: Gi) {
    a.start < b.start + b.size && b.start < a.start + a.size
  }

  /** What NVML guarantees of any reachable hardware state. */
  ghost predicate HwOk(h: Hw) {
    && (forall k :: k in h.gis ==> k.gpu in h.on && h.gis[k].size > 0)
    && (forall k, l :: k in h.gis && l in h.gis && k.gpu == l.gpu && k != l ==> !Overlap(h.gis[k], h.gis[l]))
  }

  /** Enumeration shows complete devices only: a GPU instance with a compute instance. */
  predicate Complete(h: Hw, k: GiKey) {
    k in h.gis && h.gis[k].ci.Some?
  }

  function SpecOf(k: GiKey, g: Gi): MigSpecTuple {
    MigSpecTuple(k.gpu, g.profileId, g.start)
  }

  function CanonicalName(profiles: Profiles, t: MigSpecTuple): string {
    ToCanonicalName(t, profiles(t.minor, t.profileId))
  }

  /** The name under which a live device is enumerated. */
  function NameOf(profiles: Profiles, h: Hw, k: GiKey): string
    requires k in h.gis
  {
    CanonicalName(profiles, SpecOf(k, h.gis[k]))
  }

  predicate IsMatch(h: Hw, k: GiKey, spec: MigSpecTuple) {
    Complete(h, k) && SpecOf(k, h.gis[k]) == spec
  }

  /** Two GPU instances with one specification are one GPU instance. */
  lemma MatchUnique(h: Hw, k: GiKey, l: GiKey)
    requires HwOk(h) && k in h.gis && l in h.gis && SpecOf(k, h.gis[k]) == SpecOf(l, h.gis[l])
    ensures k == l
  {
    if k != l {
      assert Overlap(h.gis[k], h.gis[l]);
    }
  }

  // ------------------------------------------------------ what a call may do

  predicate NoGi(h: Hw, gpu: nat) {
    forall k :: k in h.gis ==> k.gpu != gpu
  }

  /** Everything a deletion of t may have done to the hardware when it returns or is interrupted:
      compute instance gone, then GPU instance gone, then MIG mode off on an empty GPU. */
  ghost predicate Deletes(h: Hw, t: LiveTuple, h': Hw, done: bool) {
    var k := t.Key();
    && (|| h'.gis == h.gis
        || (k in h.gis && h.gis[k].ci == Some(t.ci) && h'.gis == h.gis[k := h.gis[k].(ci := None)])
        || (k in h.gis && h.gis[k].ci in {None, Some(t.ci)} && h'.gis == h.gis - {k}))
    && (h'.on == h.on || (h'.on == h.on - {t.gpu} && NoGi(h', t.gpu)))
    && (done ==> k !in h'.gis || t.gpu !in h.on)
  }

  /** Everything a creation may have done: MIG mode on, GPU instance k, compute instance ci in it. */
  ghost predicate Creates(h: Hw, spec: MigSpecTuple, size: nat, k: GiKey, ci: nat, h': Hw, done: bool) {
    var g := Gi(spec.profileId, spec.start, size, None);
    && h'.on in {h.on, h.on + {spec.minor}}
    && (|| (h'.gis == h.gis && !done)
        || (&& k.gpu == spec.minor && k.gpu in h'.on && k !in h.gis && size > 0
            && (forall l :: l in h.gis && l.gpu == k.gpu ==> !Overlap(h.gis[l], g))
            && (|| (h'.gis == h.gis[k := g] && !done)
                || h'.gis == h.gis[k := g.(ci := Some(ci))])))
  }

  lemma DeletesKeepsHwOk(h: Hw, t: LiveTuple, h': Hw, done: bool)
    requires HwOk(h) && Deletes(h, t, h', done)
    ensures HwOk(h')
  {
    forall k | k in h'.gis ensures k in h.gis && k.gpu in h'.on && SamePlace(h'.gis[k], h.gis[k]) {
      assert k.gpu in h.on;
    }
    forall k, l | k in h'.gis && l in h'.gis && k.gpu == l.gpu && k != l ensures !Overlap(h'.gis[k], h'.gis[l]) {
      assert !Overlap(h.gis[k], h.gis[l]);
    }
  }

  predicate SamePlace(a: Gi, b: Gi) {
    a.start == b.start && a.size == b.size
  }

  lemma CreatesKeepsHwOk(h: Hw, spec: MigSpecTuple, size: nat, k: GiKey, ci: nat, h': Hw, done: bool)
    requires HwOk(h) && Creates(h, spec, size, k, ci, h', done)
    ensures HwOk(h')
  {
    forall a, b | a in h'.gis && b in h'.gis && a.gpu == b.gpu && a != b ensures !Overlap(h'.gis[a], h'.gis[b]) {
      if a in h.gis && b in h.gis {
        assert !Overlap(h.gis[a], h.gis[b]);
      }
    }
  }

  /** The uninterrupted deletion: the GPU instance is gone; MIG mode goes off if NVML lets it. */
  function Deleted(h: Hw, t: LiveTuple, modeOff: bool): Hw {
    var gis := h.gis - {t.Key()};
    Hw(gis, if modeOff && (forall k :: k in gis ==> k.gpu != t.gpu) then h.on - {t.gpu} else h.on)
  }

  /** Deletion converges: whatever an interrupted deletion left behind, a later deletion of the
      same tuple that succeeds ends where the uninterrupted one ends, on every GPU instance. */
  lemma DeletionConverges(h: Hw, t: LiveTuple, h1: Hw, h2: Hw)
    requires HwOk(h)
    requires t.Key() in h.gis ==> h.gis[t.Key()].ci in {None, Some(t.ci)}
    requires Deletes(h, t, h1, false) && Deletes(h1, t, h2, true)
    ensures exists modeOff :: h2 == Deleted(h, t, modeOff)
  {
    var k := t.Key();
    DeletesKeepsHwOk(h, t, h1, false);
    assert k !in h2.gis;
    assert h2.gis == h.gis - {k};
    if h2.on == h.on {
      assert h2 == Deleted(h, t, false);
    } else {
      assert h2 == Deleted(h, t, true);
    }
  }

  // ------------------------------------------------------------ the library

  datatype Ret = Success | NotSupported | NotFound | Failed

  /** NVML plus the library's cached view of which GPUs had MIG mode on at startup. */
  class DeviceLib {
    var gis: map<GiKey, Gi>
    var on: set<nat>
    /** The GPUs found at startup, and migEnabled as read then, never refreshed. */
    const gpus: set<nat>
    const cachedMigEnabled: set<nat>

    constructor (gis: map<GiKey, Gi>, on: set<nat>, gpus: set<nat>)
      ensures Hardware() == Hw(gis, on) && cachedMigEnabled == on && this.gpus == gpus
    {
      this.gis, this.on, this.gpus, this.cachedMigEnabled := gis, on, gpus, on;
    }

    function Hardware(): Hw
      reads this
    {
      Hw(gis, on)
    }

    /** DeviceGetHandleByUUID: there is no handle for a GPU that was not found at startup. */
    method GetHandle(gpu: nat) returns (ok: bool)
      ensures ok ==> gpu in gpus
    {
      ok := gpu in gpus;
      if * {
        ok := false;
      }
    }

    /** nvmlDeviceGetGpuInstanceById. */
    method GetGpuInstanceById(gpu: nat, id: nat) returns (ret: Ret)
      ensures ret == NotSupported ==> gpu !in on
      ensures ret == NotFound ==> GiKey(gpu, id) !in gis
      ensures ret == Success ==> GiKey(gpu, id) in gis
    {
      ret := if gpu !in on then NotSupported else if GiKey(gpu, id) in gis then Success else NotFound;
      if * {
        ret := Failed;
      }
    }

    /** SetMigMode(DISABLE): may fail, may report success without effect, and takes effect only
        on a GPU without GPU instances. */
    method DisableMig(gpu: nat) returns (ok: bool)
      modifies this`on
      ensures on == old(on) || (on == old(on) - {gpu} && NoGi(Hardware(), gpu))
    {
      var takesEffect := *;
      ok := *;
      if ok && takesEffect && (forall k :: k in gis ==> k.gpu != gpu) {
        on := on - {gpu};
      }
    }

    /** Does getMigDevices report any device? It reports none on a GPU that had MIG mode off at
        startup, whatever is there now. */
    method AnyMigDevice(gpu: nat) returns (r: Result<bool>)
      ensures r.Ok? ==> (r.value <==> gpu in cachedMigEnabled && exists k :: k in gis && k.gpu == gpu && gis[k].ci.Some?)
    {
      if gpu !in cachedMigEnabled {
        return Ok(false);
      }
      if * {
        return Err;
      }
      r := Ok(exists k :: k in gis && k.gpu == gpu && gis[k].ci.Some?);
    }

    method MaybeDisableMigMode(gpu: nat) returns (ok: bool)
      modifies this`on
      ensures on == old(on) || (on == old(on) - {gpu} && NoGi(Hardware(), gpu))
      ensures (gpu in cachedMigEnabled && exists k :: k in gis && k.gpu == gpu && gis[k].ci.Some?) ==> on == old(on)
      ensures gpu !in gpus ==> !ok && on == old(on)
    {
      if gpu !in gpus {
        return false;
      }
      var any := AnyMigDevice(gpu);
      match any
      case Err => ok := false;
      case Ok(some) =>
        if some {
          ok := true;
        } else {
          ok := DisableMig(gpu);
        }
    }

    /** deleteMigDevice. Success means the GPU instance is gone, or MIG mode was off already. */
    method DeleteMigDevice(t: LiveTuple) returns (ok: bool)
      modifies this
      ensures Deletes(old(Hardware()), t, Hardware(), ok)
      ensures t.gpu !in gpus ==> !ok && Hardware() == old(Hardware())
    {
      var k := t.Key();
      var handle := GetHandle(t.gpu);
      if !handle {
        return false;
      }
      var gires := GetGpuInstanceById(t.gpu, t.gi);
      if gires == NotSupported {
        return true;
      }
      if gires == Failed {
        return false;
      }
      if gires == NotFound {
        ok := MaybeDisableMigMode(t.gpu);
        return;
      }
      if * {
        return false;  // looking up the compute instance failed
      }
      if gis[k].ci == Some(t.ci) {
        if * {
          return false;  // destroying the compute instance failed
        }
        gis := gis[k := gis[k].(ci := None)];
      }
      var inUse := *;
      if gis[k].ci.Some? || inUse {
        return false;  // destroying the GPU instance failed
      }
      gis := gis - {k};
      assert gis == old(gis) - {k};
      ok := MaybeDisableMigMode(t.gpu);
    }

    /** createMigDevice: enable MIG mode if needed, create GPU and compute instance. NVML picks the
        ids; it refuses a placement that overlaps an existing one. */
    method CreateMigDevice(spec: MigSpecTuple, size: nat) returns (r: Result<LiveTuple>, k: GiKey, ci: nat)
      requires size > 0
      modifies this
      ensures Creates(old(Hardware()), spec, size, k, ci, Hardware(), r.Ok?)
      ensures r.Ok? ==> r.value == LiveTuple(spec.minor, k.id, ci) && r.value.Key() == k
      ensures spec.minor !in gpus ==> r.Err? && Hardware() == old(Hardware())
    {
      var id: nat := *;
      k, ci := GiKey(spec.minor, id), *;
      r := Err;
      var handle := GetHandle(spec.minor);
      if !handle {
        return;
      }
      if spec.minor !in on {
        if * {
          return;
        }
        on := on + {spec.minor};
      }
      var g := Gi(spec.profileId, spec.start, size, None);
      var refused := *;
      if refused || k in gis || exists l :: l in gis && l.gpu == k.gpu && Overlap(gis[l], g) {
        return;
      }
      gis := gis[k := g];
      if * {
        return;
      }
      gis := gis[k := g.(ci := Some(ci))];
      assert gis == old(gis)[k := g.(ci := Some(ci))];
      if * {
        return;  // reading back the compute instance or its UUID failed
      }
      r := Ok(LiveTuple(spec.minor, k.id, ci));
    }

    /** The device slots of a GPU: every complete device sits in one. */
    method DeviceSlots(gpu: nat) returns (slots: seq<GiKey>)
      ensures forall k :: k in slots <==> k.gpu == gpu && Complete(Hardware(), k)
      ensures forall i, j :: 0 <= i < j < |slots| ==> slots[i] != slots[j]
    {
      var rest := gis.Keys;
      slots := [];
      while rest != {}
        invariant rest <= gis.Keys
        invariant forall k :: k in slots <==> k.gpu == gpu && Complete(Hardware(), k) && k !in rest
        invariant forall i, j :: 0 <= i < j < |slots| ==> slots[i] != slots[j]
        decreases |rest|
      {
        var k :| k in rest;
        rest := rest - {k};
        if k.gpu == gpu && gis[k].ci.Some? {
          slots := slots + [k];
        }
      }
    }

    /** FindMigDevBySpec: take the parent's handle and walk its device slots. Every complete device of the parent sits
        in some slot. A slot whose handle cannot be read is skipped like an empty one; `lost` says
        that this happened to a slot holding the very device looked for. */
    method FindMigDevBySpec(spec: MigSpecTuple, slots: seq<GiKey>) returns (r: Result<Option<LiveTuple>>, ghost lost: bool)
      requires forall k :: Complete(Hardware(), k) && k.gpu == spec.minor ==> k in slots
      ensures r.Ok? && r.value.Some? ==>
                IsMatch(Hardware(), r.value.value.Key(), spec) && (Some(r.value.value.ci) == gis[r.value.value.Key()].ci || r.value.value.ci == 0)
      ensures r.Ok? && r.value.None? ==> lost || forall k :: !IsMatch(Hardware(), k, spec)
      ensures lost ==> exists k :: IsMatch(Hardware(), k, spec)
      ensures r.Ok? ==> spec.minor in gpus
    {
      lost := false;
      var handle := GetHandle(spec.minor);
      if !handle {
        return Err, lost;
      }
      var i := 0;
      while i < |slots|
        invariant 0 <= i <= |slots|
        invariant lost || forall j :: 0 <= j < i ==> !IsMatch(Hardware(), slots[j], spec)
        invariant lost ==> exists k :: IsMatch(Hardware(), k, spec)
      {
        var k := slots[i];
        i := i + 1;
        if * {
          lost := lost || IsMatch(Hardware(), k, spec);
          continue;
        }
        if !Complete(Hardware(), k) {
          continue;
        }
        if * {
          return Err, lost;
        }
        if SpecOf(k, gis[k]) == spec {
          var known := *;
          r := Ok(Some(LiveTuple(k.gpu, k.id, if known then gis[k].ci.value else 0)));
          return;
        }
      }
      r := Ok(None);
    }
  }

  /** Rollback finds devices by specification. After a deletion that was interrupted anywhere it finds the device again
      exactly if the GPU instance is still there with its compute instance. */
  lemma RollbackFindsIff(h: Hw, t: LiveTuple, h1: Hw)
    requires HwOk(h) && t.Key() in h.gis && Deletes(h, t, h1, false)
    ensures (exists k :: IsMatch(h1, k, SpecOf(t.Key(), h.gis[t.Key()]))) <==> t.Key() in h1.gis && h1.gis[t.Key()].ci.Some?
  {
    var k := t.Key();
    if l :| IsMatch(h1, l, SpecOf(k, h.gis[k])) {
      assert l in h.gis && SpecOf(l, h.gis[l]) == SpecOf(k, h.gis[k]);
      MatchUnique(h, l, k);
    }
    if k in h1.gis && h1.gis[k].ci.Some? {
      assert IsMatch(h1, k, SpecOf(k, h.gis[k]));
    }
  }

  /** So it stops seeing a device whose compute instance it has destroyed: unlike deletion by tuple it does not finish what
      it began. */
  lemma RollbackBySpecDoesNotConverge(h: Hw, t: LiveTuple)
    requires HwOk(h) && t.Key() in h.gis && h.gis[t.Key()].ci == Some(t.ci)
    ensures var h1 := Hw(h.gis[t.Key() := h.gis[t.Key()].(ci := None)], h.on);
            && Deletes(h, t, h1, false)
            && t.Key() in h1.gis
            && forall k :: !IsMatch(h1, k, SpecOf(t.Key(), h.gis[t.Key()]))
  {
    var k := t.Key();
    RollbackFindsIff(h, t, Hw(h.gis[k := h.gis[k].(ci := None)], h.on));
  }
}
