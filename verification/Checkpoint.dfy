/** The two checkpoint versions, their conversion and their checksums
    (cmd/hami-kubelet-plugin/checkpoint.go, checkpointv.go). */
module Checkpoint {
  import opened Base
  import opened Claims

  datatype EntryV1 = EntryV1(results: seq<AllocResult>, devices: seq<PreparedDevice>)

  type ClaimsV1 = map<Uid, EntryV1>

  type ClaimsV2 = map<Uid, Entry>

  /** What the file stores: a missing claims map and an empty one are the same file. */
  datatype ValueV2 = ValueV2(checksum: nat, claims: ClaimsV2, bootId: string)

  datatype Value = Value(checksum: nat, v1: Option<ClaimsV1>, v2: Option<ValueV2>)

  // --------------------------------------------------------------- conversion

  function UpgradeEntry(e: EntryV1): Entry {
    Entry(PrepareCompleted, e.results, e.devices, "", "")
  }

  function DowngradeEntry(e: Entry): EntryV1 {
    EntryV1(e.results, e.devices)
  }

  function Upgrade(v1: ClaimsV1): ClaimsV2 {
    map u | u in v1 :: UpgradeEntry(v1[u])
  }

  /** Only completed claims have a place in version 1. */
  function Downgrade(v2: ClaimsV2): ClaimsV1 {
    map u | u in v2 && v2[u].state == PrepareCompleted :: DowngradeEntry(v2[u])
  }

  method ToV2(v1: ClaimsV1) returns (v2: ClaimsV2)
    ensures v2 == Upgrade(v1)
  {
    v2 := map[];
    var todo := v1.Keys;
    while todo != {}
      invariant todo <= v1.Keys
      invariant v2 == map u | u in v1 && u !in todo :: UpgradeEntry(v1[u])
    {
      var u :| u in todo;
      todo := todo - {u};
      v2 := v2[u := Entry(PrepareCompleted, v1[u].results, v1[u].devices, "", "")];
    }
  }

  method ToV1(v2: ClaimsV2) returns (v1: ClaimsV1)
    ensures v1 == Downgrade(v2)
  {
    v1 := map[];
    var todo := v2.Keys;
    while todo != {}
      invariant todo <= v2.Keys
      invariant v1 == map u | u in v2 && u !in todo && v2[u].state == PrepareCompleted :: DowngradeEntry(v2[u])
    {
      var u :| u in todo;
      todo := todo - {u};
      if v2[u].state != PrepareCompleted {
        continue;
      }
      v1 := v1[u := EntryV1(v2[u].results, v2[u].devices)];
    }
  }

  lemma UpgradeThenDowngrade(v1: ClaimsV1)
    ensures Downgrade(Upgrade(v1)) == v1
  {
    forall u | u in v1 ensures Downgrade(Upgrade(v1))[u] == v1[u] {
    }
  }

  function CompletedOnly(v2: ClaimsV2): ClaimsV2 {
    map u | u in v2 && v2[u].state == PrepareCompleted :: v2[u]
  }

  /** A downgrade followed by an upgrade keeps exactly the completed entries, unchanged, precisely when
      completed entries carry no name and no namespace. */
  lemma DowngradeThenUpgradeIff(v2: ClaimsV2)
    ensures Upgrade(Downgrade(v2)) == CompletedOnly(v2) <==>
            forall u :: u in v2 && v2[u].state == PrepareCompleted ==> v2[u].name == "" && v2[u].namespace == ""
  {
    var back, kept := Upgrade(Downgrade(v2)), CompletedOnly(v2);
    assert back.Keys == kept.Keys;
    forall u | u in kept ensures back[u] == v2[u] <==> v2[u].name == "" && v2[u].namespace == "" {
      assert back[u] == v2[u].(name := "", namespace := "");
    }
    if back == kept {
      forall u | u in v2 && v2[u].state == PrepareCompleted ensures v2[u].name == "" && v2[u].namespace == "" {
        assert u in kept && back[u] == kept[u];
      }
    }
  }

  // ---------------------------------------------------------------- checksums

  type Bytes = seq<bv8>

  /** Any deterministic encoder, which may fail, any decoder, and any hash. */
  datatype Codec = Codec(encode: Value -> Option<Bytes>, encodeV2: ValueV2 -> Option<Bytes>, decode: Bytes -> Option<Value>, hash: Bytes -> nat)

  /** What is encoded can be read back. */
  ghost predicate Faithful(k: Codec) {
    forall v :: k.encode(v).Some? ==> k.decode(k.encode(v).value) == Some(v)
  }

  /** The outer checksum: of everything but version 2. */
  function ChecksumV1(k: Codec, v1: Option<ClaimsV1>): Option<nat> {
    match k.encode(Value(0, v1, None))
    case None => None
    case Some(b) => Some(k.hash(b))
  }

  function ChecksumV2(k: Codec, v: ValueV2): Option<nat> {
    match k.encodeV2(v.(checksum := 0))
    case None => None
    case Some(b) => Some(k.hash(b))
  }

  /** Both verifications succeed. */
  predicate Verifies(k: Codec, v: Value) {
    && ChecksumV1(k, v.v1) == Some(v.checksum)
    && (v.v2.Some? ==> ChecksumV2(k, v.v2.value) == Some(v.v2.value.checksum))
  }

  class CheckpointV2 {
    var checksum: nat
    var claims: ClaimsV2
    var bootId: string

    constructor (checksum: nat, claims: ClaimsV2, bootId: string)
      ensures Contents() == ValueV2(checksum, claims, bootId)
    {
      this.checksum, this.claims, this.bootId := checksum, claims, bootId;
    }

    function Contents(): ValueV2
      reads this
    {
      ValueV2(checksum, claims, bootId)
    }
  }

  class Checkpoint {
    var checksum: nat
    var v1: Option<ClaimsV1>
    var v2: CheckpointV2?

    constructor (checksum: nat, v1: Option<ClaimsV1>, v2: CheckpointV2?)
      ensures this.checksum == checksum && this.v1 == v1 && this.v2 == v2
    {
      this.checksum, this.v1, this.v2 := checksum, v1, v2;
    }

    function Contents(): Value
      reads this, v2
    {
      Value(checksum, v1, if v2 == null then None else Some(v2.Contents()))
    }

    /** The claims of whichever version is present. */
    function LatestClaims(): ClaimsV2
      reads this, v2
    {
      if v2 != null then v2.claims else if v1.Some? then Upgrade(v1.value) else map[]
    }

    /** ToLatestVersion: the result shares version 2 with the receiver when there is one. */
    method ToLatestVersion() returns (latest: Checkpoint)
      ensures fresh(latest) && latest.v1 == None && latest.v2 != null
      ensures latest.v2.claims == LatestClaims()
      ensures if v2 != null then latest.v2 == v2 else fresh(latest.v2) && latest.v2.bootId == ""
    {
      var shared := v2;
      if shared == null {
        var claims := map[];
        if v1.Some? {
          claims := ToV2(v1.value);
        }
        shared := new CheckpointV2(0, claims, "");
      }
      latest := new Checkpoint(0, None, shared);
    }

    /** SetChecksumV1: version 2 is hidden from the encoder and put back, so it cannot matter. */
    method SetChecksumV1(k: Codec) returns (ok: bool)
      modifies this
      ensures v2 == old(v2) && v1 == old(v1)
      ensures ok <==> ChecksumV1(k, v1).Some?
      ensures ok ==> Some(checksum) == ChecksumV1(k, v1)
    {
      var hidden := v2;
      v2 := null;
      checksum := 0;
      var out := k.encode(Contents());
      if out.Some? {
        checksum := k.hash(out.value);
      }
      v2 := hidden;
      ok := out.Some?;
    }

    method SetChecksumV2(k: Codec) returns (ok: bool)
      requires v2 != null
      modifies v2
      ensures v2.claims == old(v2.claims) && v2.bootId == old(v2.bootId)
      ensures ok <==> ChecksumV2(k, v2.Contents()).Some?
      ensures ok ==> Some(v2.checksum) == ChecksumV2(k, v2.Contents())
    {
      v2.checksum := 0;
      var out := k.encodeV2(v2.Contents());
      if out.Some? {
        v2.checksum := k.hash(out.value);
      }
      ok := out.Some?;
    }

    /** MarshalCheckpoint. What is written carries both versions of the same claims and both checksums of it;
        the receiver keeps its claims and boot id. */
    method MarshalCheckpoint(k: Codec) returns (r: Option<Bytes>, ghost written: Value)
      modifies v2
      ensures r.Some? ==> r == k.encode(written) && Verifies(k, written)
      ensures r.Some? ==> written.v2.Some? && written.v2.value.claims == old(LatestClaims())
      ensures r.Some? ==> written.v1 == Some(Downgrade(old(LatestClaims())))
      ensures v2 != null ==> v2.claims == old(v2.claims) && v2.bootId == old(v2.bootId) && (r.Some? ==> written.v2.value.bootId == v2.bootId)
    {
      var cp := ToLatestVersion();
      var v1 := ToV1(cp.v2.claims);
      cp.v1 := Some(v1);
      written := cp.Contents();
      var ok := cp.SetChecksumV1(k);
      if !ok {
        return None, written;
      }
      ok := cp.SetChecksumV2(k);
      if !ok {
        return None, written;
      }
      written := cp.Contents();
      r := k.encode(cp.Contents());
    }

    /** VerifyChecksumV1 and VerifyChecksumV2: fields are blanked for the encoder and restored. */
    method VerifyChecksum(k: Codec) returns (ok: bool)
      modifies this, v2
      ensures v2 == old(v2) && Contents() == old(Contents())
      ensures ok <==> Verifies(k, Contents())
    {
      var ck, hidden := checksum, v2;
      v2, checksum := null, 0;
      var out := k.encode(Contents());
      checksum, v2 := ck, hidden;
      if out.None? || k.hash(out.value) != ck {
        return false;
      }
      if v2 == null {
        return true;
      }
      var ck2 := v2.checksum;
      v2.checksum := 0;
      var out2 := k.encodeV2(v2.Contents());
      v2.checksum := ck2;
      ok := out2.Some? && k.hash(out2.value) == ck2;
    }
  }
}
