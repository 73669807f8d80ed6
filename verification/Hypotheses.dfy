/** What the code relies on and does not enforce, and where a run may start. */
module Hypotheses {
  import opened Base
  import opened Claims
  import opened HamiCore
  import opened MigNames
  import opened Node
  import opened Nvlib

  // --------------------------------------------------------------- the books

  /** Entries as this code writes them: completed ones carry no name, started ones no devices. */
  predicate EntryOk(e: Entry) {
    match e.state
    case PrepareStarted => e.devices == []
    case PrepareCompleted => e.name == "" && e.namespace == ""
    case Unset => false
  }

  ghost predicate EntriesOk(s: Node) {
    forall u :: u in ClaimsOf(s) ==> EntryOk(ClaimsOf(s)[u])
  }

  /** No two completed claims share a non-admin device. */
  predicate Exclusive(claims: map<Uid, Entry>) {
    forall u, v :: u in claims && v in claims && u != v && claims[u].state == PrepareCompleted && claims[v].state == PrepareCompleted ==>
      NonAdminSet(claims[u].results) * NonAdminSet(claims[v].results) == {}
  }

  /** A recorded name is the name the UID was created under. */
  predicate KeyOf(s: Node, u: Uid, key: ObjectKey) {
    key.name != "" ==> u in s.born && s.born[u] == key
  }

  predicate EntriesNamed(s: Node) {
    forall u :: u in ClaimsOf(s) ==> ClaimsOf(s)[u].state == PrepareStarted ==>
      KeyOf(s, u, ObjectKey(ClaimsOf(s)[u].namespace, ClaimsOf(s)[u].name))
  }

  /** A name this driver could have announced: if it parses as MIG, it is the canonical name of what it parses to. */
  predicate IsAdvertised(env: Env, name: string) {
    match ParseCanonicalName(name)
    case None => true
    case Some(t) => name == CanonicalName(env.profiles, t)
  }

  predicate AdvertisedResults(env: Env, results: seq<AllocResult>) {
    forall r :: r in results ==> IsAdvertised(env, r.device)
  }

  predicate AllAdvertised(env: Env, claims: map<Uid, Entry>) {
    forall u :: u in claims ==> AdvertisedResults(env, claims[u].results)
  }

  /** MIG devices are allocated by this driver and not for admin access. */
  predicate UnsharedResults(results: seq<AllocResult>) {
    forall r :: r in results ==> ParseCanonicalName(r.device).Some? ==> r.driver == DriverName && !r.adminAccess
  }

  predicate AllUnshared(claims: map<Uid, Entry>) {
    forall u :: u in claims ==> UnsharedResults(claims[u].results)
  }

  predicate Alive(hw: Hw, t: LiveTuple) {
    Complete(hw, t.Key()) && hw.gis[t.Key()].ci == Some(t.ci)
  }

  /** A recorded device of claim u: while its GPU instance exists, it is u's, enumerated under the recorded name, and
      holds no other compute instance. */
  predicate RecordOk(env: Env, hw: Hw, owner: map<GiKey, Uid>, u: Uid, results: seq<AllocResult>, d: PreparedDevice) {
    d.live.Some? ==>
      var k := d.live.value.Key();
      d.device in DeviceNames(results) &&
      (k in hw.gis ==> k in owner && owner[k] == u && NameOf(env.profiles, hw, k) == d.device && hw.gis[k].ci in {None, Some(d.live.value.ci)})
  }

  predicate RecordsOk(env: Env, claims: map<Uid, Entry>, hw: Hw, owner: map<GiKey, Uid>) {
    forall u, d :: u in claims && d in claims[u].devices ==> RecordOk(env, hw, owner, u, claims[u].results, d)
  }

  /** Completed claims whose Unprepare has not begun have all their MIG devices. */
  predicate RecordsAlive(claims: map<Uid, Entry>, hw: Hw, touched: set<Uid>) {
    forall u, d :: u in claims && claims[u].state == PrepareCompleted && u !in touched && d in claims[u].devices && d.live.Some? ==>
      Alive(hw, d.live.value)
  }

  predicate InDevices(devices: seq<PreparedDevice>, k: GiKey) {
    exists d :: d in devices && d.live.Some? && d.live.value.Key() == k
  }

  /** The checkpoint knows of u's device with this name under this key. */
  predicate Accounted(claims: map<Uid, Entry>, u: Uid, k: GiKey, name: string) {
    && u in claims
    && match claims[u].state
       case PrepareCompleted => InDevices(claims[u].devices, k)
       case PrepareStarted => name in DeviceNames(claims[u].results) && name !in CompletedNames(claims)
       case Unset => false
  }

  ghost predicate AllAccounted(env: Env, s: Node) {
    forall k :: k in s.owner && Complete(s.hw, k) ==> Accounted(ClaimsOf(s), s.owner[k], k, NameOf(env.profiles, s.hw, k))
  }

  /** What this driver made is enumerated under names that can be parsed back. */
  ghost predicate OwnersNamed(env: Env, s: Node) {
    forall k :: k in s.owner ==> k in s.hw.gis && ParseCanonicalName(NameOf(env.profiles, s.hw, k)) == Some(SpecOf(k, s.hw.gis[k]))
  }

  /** u's last directory is there, carries u's marker, and holds nothing but u's own files. */
  predicate Housed(s: Node, u: Uid) {
    && u in s.home && HomeDir(s.home[u]) in s.tree && s.tree[HomeDir(s.home[u])].Dir?
    && Marker(u) in s.tree[HomeDir(s.home[u])].files
    && s.tree[HomeDir(s.home[u])].files.Keys <= {Marker(u), CacheFile(u)}
  }

  /** Whose homes are whose: claims in the checkpoint only, no home shared, container names as Kubernetes has them. */
  predicate HomesOk(s: Node) {
    && s.homes.Keys <= ClaimsOf(s).Keys && s.home.Keys <= s.homes.Keys
    && (forall u :: u in s.home ==> s.home[u] in s.homes[u])
    && (forall u, h :: u in s.homes && h in s.homes[u] ==> '_' !in h.container)
    && (forall u, v :: u in s.homes && v in s.homes && u != v ==> s.homes[u] !! s.homes[v])
    && (forall u :: u in ClaimsOf(s) ==> '.' !in u)
  }

  ghost predicate CompletedHoused(s: Node) {
    forall u :: Completed(s, u) && u !in s.touched && Own(ClaimsOf(s)[u].results) != [] ==> Housed(s, u)
  }

  predicate Marked(tree: Tree, d: string, u: Uid) {
    d in tree && tree[d].Dir? && Marker(u) in tree[d].files
  }

  /** A marked claim is in the checkpoint and has results. */
  ghost predicate MarkersKnown(s: Node) {
    forall d, u :: Marked(s.tree, d, u) ==> u in ClaimsOf(s) && Own(ClaimsOf(s)[u].results) != []
  }

  /** The checkpoint records one device for each of the driver's results. */
  predicate LengthsOk(claims: map<Uid, Entry>) {
    forall u :: u in claims && claims[u].state == PrepareCompleted ==> |claims[u].devices| == |Own(claims[u].results)|
  }

  // -------------------------------------------------------------- hypotheses

  /** What can be asked of entries that a first startup finds and keeps. */
  datatype Books = Entries | Exclusiveness | Names | MigResults | Unshared | MigRecords | Accounts | Homes | Markers

  ghost predicate BooksOk(env: Env, s: Node, b: Books) {
    match b
    case Entries => EntriesOk(s)
    case Exclusiveness => Exclusive(ClaimsOf(s))
    case Names => EntriesNamed(s)
    case MigResults => AllAdvertised(env, ClaimsOf(s))
    case Unshared => AllUnshared(ClaimsOf(s))
    case MigRecords => RecordsOk(env, ClaimsOf(s), s.hw, s.owner) && RecordsAlive(ClaimsOf(s), s.hw, s.touched)
    case Accounts => AllAccounted(env, s) && OwnersNamed(env, s)
    case Homes => HomesOk(s) && CompletedHoused(s)
    case Markers => MarkersKnown(s) && LengthsOk(ClaimsOf(s))
  }

  datatype Hypothesis =
    | Identity             // a claim is prepared under the name and namespace its UID was created with
    | Advertised           // results carry names this driver could announce, and do not change while the claim has an entry
    | NoMigSharing         // a result that names a MIG device is this driver's and has no admin access
    | FreshIds             // NVML does not reuse a GPU instance id that a checkpointed tuple names
    | ReliableScan         // a device slot is unreadable only if it is empty
    | OwnContainers        // a container uses one HAMi claim and a claim is used by one container at a time
    | SameBoot             // no reboot
    | Adopted(books: Books) // entries that a first startup finds and keeps are as these books say

  /** No checkpointed device is the GPU instance k. */
  predicate IdFree(claims: map<Uid, Entry>, k: GiKey) {
    forall u, d :: u in claims && d in claims[u].devices && d.live.Some? ==> d.live.value.Key() != k
  }

  /** The file will be kept by the next startup: it is of this boot, or of a version without boot ids. */
  predicate Kept(s: Node) {
    s.file.Some? && s.file.value.bootId in {"", s.boot}
  }

  /** The first startup of this boot, on a file that it keeps. */
  predicate Adopts(s: Node, e: Event) {
    e.Process? && e.p.Startup? && !s.up && Kept(s)
  }

  ghost predicate Holds(env: Env, s: Node, e: Event, h: Hypothesis) {
    match h
    case Identity => e.Process? && e.p.CallPrepare? ==> KnownClaim(s, e.p.claim)
    case Advertised => e.Process? && e.p.CallPrepare? ==> AdvertisedClaim(env, s, e.p.claim)
    case NoMigSharing => e.Process? && e.p.CallPrepare? ==> UnsharedResults(e.p.claim.results)
    case FreshIds => e.Prepare? && e.q.CreateMig? ==> IdFree(ClaimsOf(s), e.q.k)
    case ReliableScan => e.Delete? && e.j.FindNothing? ==> !e.j.lost
    case OwnContainers =>
      && (e.Process? && e.p.CallPrepare? ==> '.' !in e.p.claim.uid)
      && (e.Prepare? && e.q.PlaceHook? && s.op.Preparing? ==> OwnHome(s, s.op.claim.uid, e.q.home))
    case SameBoot => e.Outside? ==> !e.o.Reboot?
    case Adopted(b) => Adopts(s, e) ==> BooksOk(env, s, b)
  }

  predicate KnownClaim(s: Node, c: Claim) {
    c.uid in s.born && s.born[c.uid] == ObjectKey(c.namespace, c.name) && c.name != ""
  }

  predicate AdvertisedClaim(env: Env, s: Node, c: Claim) {
    AdvertisedResults(env, c.results) && (c.uid in ClaimsOf(s) ==> ClaimsOf(s)[c.uid].results == c.results)
  }

  predicate OwnHome(s: Node, uid: Uid, home: Home) {
    '_' !in home.container && forall u :: u in ClaimsOf(s) && u != uid ==> home !in HomesOf(s, u)
  }

  ghost predicate AllHold(env: Env, s: Node, e: Event, hs: set<Hypothesis>) {
    forall h :: h in hs ==> Holds(env, s, e, h)
  }

  /** Every event of the run meets the hypotheses in the state it happens in. */
  ghost predicate Assuming(env: Env, s: Node, es: seq<Event>, hs: set<Hypothesis>)
    decreases es
  {
    es == [] || (Enabled(env, s, es[0]) ==> AllHold(env, s, es[0], hs) && Assuming(env, Apply(env, s, es[0]), es[1..], hs))
  }

  /** What the plugin announces: HAMi GPUs in HAMi mode; full GPUs and MIG partitions, keyed by their canonical
      names, in dynamic MIG mode; and only what is on its GPUs. */
  ghost predicate EnvOk(env: Env) {
    forall d :: d in env.allocatable ==>
      var a := env.allocatable[d];
      && (env.mode == HamiMode <==> a.deviceType == HamiGpuDevice)
      && (a.deviceType == MigDynamicDevice ==>
            && env.mode == DynamicMig && a.size > 0
            && ParseCanonicalName(d) == Some(a.spec) && d == CanonicalName(env.profiles, a.spec))
      && (env.mode == DynamicMig && a.deviceType != MigDynamicDevice ==> ParseCanonicalName(d) == None)
      && (ParseCanonicalName(d).Some? ==> ParseCanonicalName(d).value.minor in env.gpus)
  }

  // ------------------------------------------------------------------- start

  predicate ApiOk(s: Node) {
    forall k :: k in s.api ==> s.api[k] in s.born && s.born[s.api[k]] == k
  }

  /** A node before this plugin's first startup in this boot. There may be any checkpoint file, of any boot or of none,
      and anything that earlier processes have left. */
  ghost predicate Initial(s: Node) {
    !s.up && s.boot != "" && s.op == Idle && s.cleaners == map[] && HwOk(s.hw) && s.owner.Keys <= s.hw.gis.Keys && ApiOk(s)
  }

  /** Unless the file is kept, there is no MIG device of this driver, nor a directory with a marker. */
  ghost predicate CleanHardware(s: Node) {
    Kept(s) || s.owner == map[]
  }

  ghost predicate CleanTree(s: Node) {
    Kept(s) || (s.home == map[] && forall d, u :: !Marked(s.tree, d, u))
  }
}
