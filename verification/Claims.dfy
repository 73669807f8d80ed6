/** Claims, allocation results and prepared devices: the values the plugin passes around and writes to its checkpoint. */
module Claims {
  import opened Base
  import MigNames
  import Nvlib

  type Uid = string

  const DriverName := "hami-core-gpu.project-hami.io"

  /** A resource quantity: its value when it is an int64. */
  type Quantity = Option<int>

  /** One device allocated to a claim. */
  datatype AllocResult = AllocResult(driver: string, request: string, pool: string, device: string, adminAccess: bool, consumed: map<string, Quantity>)

  datatype DeviceType = HamiGpuDevice | GpuDevice | MigStaticDevice | MigDynamicDevice | VfioDevice

  /** A device this node can allocate; a dynamic MIG device says which partition it stands for. */
  datatype Allocatable = Allocatable(deviceType: DeviceType, canonicalName: string, healthy: bool, spec: MigNames.MigSpecTuple, size: nat)

  /** A prepared device; a MIG device carries what is needed to delete it. */
  datatype PreparedDevice = PreparedDevice(deviceType: DeviceType, request: string, pool: string, device: string, infoName: string, cdiId: string, live: Option<Nvlib.LiveTuple>)

  datatype ClaimState = Unset | PrepareStarted | PrepareCompleted

  /** A claim's entry in the checkpoint. */
  datatype Entry = Entry(state: ClaimState, results: seq<AllocResult>, devices: seq<PreparedDevice>, name: string, namespace: string)

  /** The resource claim handed to Prepare. */
  datatype Claim = Claim(uid: Uid, name: string, namespace: string, results: seq<AllocResult>)

  function StartedEntry(c: Claim): Entry {
    Entry(PrepareStarted, c.results, [], c.name, c.namespace)
  }

  function CompletedEntry(c: Claim, devices: seq<PreparedDevice>): Entry {
    Entry(PrepareCompleted, c.results, devices, "", "")
  }

  /** The results of this driver; prepareDevices passes over the others. */
  function Own(results: seq<AllocResult>): (own: seq<AllocResult>)
    ensures forall r :: r in own <==> r in results && r.driver == DriverName
  {
    if results == [] then [] else (if results[0].driver == DriverName then [results[0]] else []) + Own(results[1..])
  }

  /** The device names of a list of results, admin access or not. */
  function DeviceNames(results: seq<AllocResult>): set<string> {
    set r | r in results :: r.device
  }

  /** requestedNonAdminDevices and GetNonAdminDevices as a set. */
  function NonAdminSet(results: seq<AllocResult>): set<string> {
    set r | r in results && r.driver == DriverName && !r.adminAccess :: r.device
  }

  /** The loop both of them run. */
  method NonAdminDevices(results: seq<AllocResult>) returns (names: set<string>)
    ensures names == NonAdminSet(results)
  {
    names := {};
    for i := 0 to |results|
      invariant names == NonAdminSet(results[..i])
    {
      assert results[..i + 1] == results[..i] + [results[i]];
      if results[i].driver != DriverName || results[i].adminAccess {
        continue;
      }
      names := names + {results[i].device};
    }
    assert results[..|results|] == results;
  }
}
