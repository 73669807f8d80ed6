/** The checkpoint on disk: marshalled by one version of the plugin, read back, verified and brought up to date by another
    (cmd/hami-kubelet-plugin/checkpoint.go, device_state.go). The kubelet's checkpoint manager, which only moves the bytes,
    is not part of this model. */
module CheckpointFile {
  import opened Base
  import opened Claims
  import opened Checkpoint
  import Store = CheckpointStore

  /** What a stored value means: the claims and the boot id of its latest version. */
  function FileOf(v: Value): Store.File {
    if v.v2.Some? then Store.File(v.v2.value.bootId, v.v2.value.claims)
    else Store.File("", if v.v1.Some? then Upgrade(v.v1.value) else map[])
  }

  predicate Readable(k: Codec, b: Bytes) {
    k.decode(b).Some? && Verifies(k, k.decode(b).value)
  }

  class CheckpointManager {
    const codec: Codec
    var disk: Option<Bytes>

    constructor (codec: Codec, disk: Option<Bytes>)
      requires Faithful(codec) && (disk.Some? ==> Readable(codec, disk.value))
      ensures Valid() && this.codec == codec && this.disk == disk
    {
      this.codec, this.disk := codec, disk;
    }

    ghost predicate Valid()
      reads this
    {
      Faithful(codec) && (disk.Some? ==> Readable(codec, disk.value))
    }

    ghost function Stored(): Option<Store.File>
      reads this
      requires Valid()
    {
      if disk.Some? then Some(FileOf(codec.decode(disk.value).value)) else None
    }

    /** Unmarshal, verify both checksums, bring up to date. */
    method GetCheckpoint() returns (r: Result<Checkpoint>)
      requires Valid()
      ensures r.Ok? ==> fresh(r.value) && r.value.v2 != null && fresh(r.value.v2) && r.value.v1 == None
      ensures r.Ok? ==> Stored() == Some(Store.File(r.value.v2.bootId, r.value.v2.claims))
    {
      var fails := *;
      if disk.None? || fails {
        return Err;
      }
      var data := codec.decode(disk.value);
      if data.None? {
        return Err;
      }
      var v := data.value;
      var v2: CheckpointV2? := null;
      if v.v2.Some? {
        v2 := new CheckpointV2(v.v2.value.checksum, v.v2.value.claims, v.v2.value.bootId);
      }
      var cp := new Checkpoint(v.checksum, v.v1, v2);
      var verified := cp.VerifyChecksum(codec);
      if !verified {
        return Err;
      }
      var latest := cp.ToLatestVersion();
      r := Ok(latest);
    }

    /** Marshal and write. What was written reads back as the same claims and boot id, under valid checksums. */
    method CreateCheckpoint(cp: Checkpoint) returns (ok: bool)
      requires Valid() && cp.v2 != null
      modifies this`disk, cp.v2
      ensures Valid() && cp.v2 == old(cp.v2)
      ensures if ok then Stored() == Some(Store.File(old(cp.v2.bootId), old(cp.v2.claims))) else disk == old(disk)
    {
      var data, written := cp.MarshalCheckpoint(codec);
      var fails := *;
      if data.None? || fails {
        return false;
      }
      assert codec.decode(data.value) == Some(written);
      disk := data;
      ok := true;
    }

    /** updateCheckpoint: read, bring up to date, mutate, marshal, write. */
    method UpdateCheckpoint(m: Store.Mutation) returns (ok: bool)
      requires Valid() && !m.Replace?
      modifies this`disk
      ensures Valid() && Stored() == if ok then Store.Apply(m, old(Stored())) else old(Stored())
      ensures ok ==> old(Stored()).Some?
    {
      var got := GetCheckpoint();
      if got.Err? {
        return false;
      }
      var cp := got.value;
      match m {
        case Put(u, e) => cp.v2.claims := cp.v2.claims[u := e];
        case Delete(u) => cp.v2.claims := cp.v2.claims - {u};
        case SetBoot(b) => cp.v2.bootId := b;
      }
      ok := CreateCheckpoint(cp);
    }

    /** createCheckpoint with a fresh checkpoint of the given boot id. */
    method ReplaceCheckpoint(bootId: string) returns (ok: bool)
      requires Valid()
      modifies this`disk
      ensures Valid() && Stored() == if ok then Some(Store.File(bootId, map[])) else old(Stored())
    {
      var v2 := new CheckpointV2(0, map[], bootId);
      var cp := new Checkpoint(0, None, v2);
      ok := CreateCheckpoint(cp);
    }
  }
}
