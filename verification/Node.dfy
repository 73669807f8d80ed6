/** One node as a state machine: the plugin's Prepare, Unprepare, startup and cleanup, one event for every step between
    which they can fail or die, interleaved with the API server (cmd/hami-kubelet-plugin: device_state.go, cleanup.go, driver.go). */
module Node {
  import opened Base
  import opened Claims
  import Store = CheckpointStore
  import opened HamiCore
  import opened MigNames
  import opened Nvlib
  import DeviceConfigs

  // ------------------------------------------------------------------- state

  /** Feature gates, as far as they matter: HAMi-Core support and dynamic MIG exclude each other. */
  datatype Mode = HamiMode | DynamicMig | NeitherMode

  /** `gpus` are the minors of the GPUs found at startup: NVML gives a handle for these and for no other. */
  datatype Env = Env(mode: Mode, profiles: Profiles, allocatable: map<string, Allocatable>, gpus: set<nat>)

  datatype Home = Home(pod: string, container: string)

  datatype ObjectKey = ObjectKey(namespace: string, name: string)

  /** A deletion still to be made: of whatever device a name denotes, or of one live tuple. */
  datatype Job = ByName(device: string) | ByTuple(tuple: LiveTuple)

  datatype PrepareStage =
    | Enter
    | Rollback(todo: seq<Job>, spare: set<string>)
    | Begin
    | Hook(placed: bool)   // the write-ahead entry is there, configs are being selected and applied
    | Create(left: seq<AllocResult>, done: seq<PreparedDevice>)

  datatype UnprepareStage =
    | Arrive
    | Sweep(todo: seq<Job>, spare: set<string>)
    | Unhook
    | Forget

  /** The operation that holds the node-wide prepare/unprepare lock. */
  datatype Op =
    | Idle
    | Preparing(claim: Claim, stage: PrepareStage)
    | Unpreparing(uid: Uid, selfInitiated: bool, ustage: UnprepareStage)
    | TearingDown(spare: set<string>)

  /** A cleanup thread: entries of its snapshot still to look up, or a stale one about to be unprepared. */
  datatype Cleaner =
    | Scanning(todo: map<Uid, ObjectKey>)
    | Pending(uid: Uid, todo: map<Uid, ObjectKey>)

  datatype Node = Node(
    up: bool,                          // this boot's startup has settled the checkpoint
    boot: string,
    file: Option<Store.File>,
    hw: Hw,
    owner: map<GiKey, Uid>,            // history: who created a GPU instance
    tree: Tree,
    homes: map<Uid, set<Home>>,        // history: where a claim's directories were placed
    home: map<Uid, Home>,              // history: where the last one was placed
    api: map<ObjectKey, Uid>,
    born: map<Uid, ObjectKey>,         // history: every UID the API server ever issued
    op: Op,
    cleaners: map<nat, Cleaner>,
    touched: set<Uid>)                 // history: completed claims whose Unprepare has begun

  function ClaimsOf(s: Node): map<Uid, Entry> {
    if s.file.Some? then s.file.value.claims else map[]
  }

  predicate Completed(s: Node, u: Uid) {
    u in ClaimsOf(s) && ClaimsOf(s)[u].state == PrepareCompleted
  }

  predicate Started(s: Node, u: Uid) {
    u in ClaimsOf(s) && ClaimsOf(s)[u].state == PrepareStarted
  }

  function WithClaims(s: Node, claims: map<Uid, Entry>): Node
    requires s.file.Some?
  {
    s.(file := Some(s.file.value.(claims := claims)))
  }

  /** Device names that completed claims refer to. */
  function CompletedNames(claims: map<Uid, Entry>): set<string> {
    set u, r | u in claims && claims[u].state == PrepareCompleted && r in claims[u].results :: r.device
  }

  function NameJobs(results: seq<AllocResult>): (jobs: seq<Job>)
    ensures forall r :: r in results ==> ByName(r.device) in jobs
    ensures forall j :: j in jobs ==> j.ByName? && j.device in DeviceNames(results)
  {
    if results == [] then [] else [ByName(results[0].device)] + NameJobs(results[1..])
  }

  function TupleJobs(devices: seq<PreparedDevice>): (jobs: seq<Job>)
    ensures forall d :: d in devices && d.live.Some? ==> ByTuple(d.live.value) in jobs
    ensures forall j :: j in jobs ==> j.ByTuple? && exists d :: d in devices && d.live == Some(j.tuple)
  {
    if devices == [] then []
    else (if devices[0].live.Some? then [ByTuple(devices[0].live.value)] else []) + TupleJobs(devices[1..])
  }

  /** validateNoOverlappingPreparedDevices. */
  predicate NoOverlap(claims: map<Uid, Entry>, c: Claim) {
    forall u :: u in claims && u != c.uid && claims[u].state == PrepareCompleted ==>
      NonAdminSet(claims[u].results) * NonAdminSet(c.results) == {}
  }

  function HomesOf(s: Node, u: Uid): set<Home> {
    if u in s.homes then s.homes[u] else {}
  }

  function HomeDir(h: Home): string {
    DirName(h.pod, h.container)
  }

  // ------------------------------------------------------------------ events

  /** The API server, the machine, the workloads. */
  datatype OutsideEvent =
    | ApiCreate(key: ObjectKey, uid: Uid)
    | ApiDelete(key: ObjectKey)
    | Reboot(boot: string)
    | CudaCache(uid: Uid)

  /** Startup, the start and the end of an operation. Stop is an error return or the death of the lock holder. */
  datatype ProcessEvent =
    | Startup
    | Stop
    | CallPrepare(claim: Claim)
    | CallUnprepare(uid: Uid)
    | CallTeardown

  /** Cleanup threads. Drop is a thread that gives up or dies. */
  datatype CleanupEvent =
    | Snapshot(i: nat)
    | Look(i: nat, uid: Uid, lookupFailed: bool)
    | SelfUnprepare(i: nat)
    | Drop(i: nat)

  datatype PrepareEvent =
    | ReturnPrepared
    | AdmitPrepare
    | EndRollback
    | WriteStarted
    | PlaceHook(home: Home, tree: Tree, placedAll: bool)
    | EndHook(order: seq<AllocResult>)
    | CreateMig(k: GiKey, ci: nat, hw: Hw, made: bool)
    | Take
    | WriteCompleted

  datatype UnprepareEvent =
    | ReturnUnknown
    | AdmitUnprepare
    | ReleaseHook(tree: Tree, done: bool)
    | EndSweep
    | WriteForget

  /** Deletions, shared by rollback, unprepare and startup teardown. `lost`: the slot that holds the device could not be
      read. Both the search and the deletion first take the handle of the parent GPU. */
  datatype JobEvent =
    | SkipJob
    | FindNothing(lost: bool)
    | DeleteMig(tuple: LiveTuple, hw: Hw, done: bool)

  datatype Event =
    | Outside(o: OutsideEvent)
    | Process(p: ProcessEvent)
    | Cleanup(c: CleanupEvent)
    | Prepare(q: PrepareEvent)
    | Unprepare(u: UnprepareEvent)
    | Delete(j: JobEvent)

  function Todo(op: Op): seq<Job> {
    match op
    case Preparing(_, Rollback(todo, _)) => todo
    case Unpreparing(_, _, Sweep(todo, _)) => todo
    case _ => []
  }

  function Spare(op: Op): set<string> {
    match op
    case Preparing(_, Rollback(_, spare)) => spare
    case Unpreparing(_, _, Sweep(_, spare)) => spare
    case TearingDown(spare) => spare
    case _ => {}
  }

  function NextJob(op: Op): Op
    requires Todo(op) != []
  {
    match op
    case Preparing(c, Rollback(todo, spare)) => Preparing(c, Rollback(todo[1..], spare))
    case Unpreparing(u, self, Sweep(todo, spare)) => Unpreparing(u, self, Sweep(todo[1..], spare))
  }

  /** May the operation delete the device t now? By name: the device found for the parsed name, spared if a completed
      claim refers to that name. Startup teardown: any complete device whose name is not spared, or one that is not there,
      which leaves only MIG mode to turn off. */
  predicate MayDelete(env: Env, s: Node, t: LiveTuple) {
    var k := t.Key();
    if s.op.TearingDown? then
      k !in s.hw.gis || (s.hw.gis[k].ci == Some(t.ci) && NameOf(env.profiles, s.hw, k) !in s.op.spare)
    else
      var todo := Todo(s.op);
      todo != [] &&
      match todo[0]
      case ByTuple(t') => t == t'
      case ByName(d) =>
        && d !in Spare(s.op) && ParseCanonicalName(d).Some? && IsMatch(s.hw, k, ParseCanonicalName(d).value)
        && (s.hw.gis[k].ci == Some(t.ci) || t.ci == 0)
  }

  /** Config selection refuses a claim with a result of this driver that is not announced. */
  predicate AllAllocatable(env: Env, results: seq<AllocResult>) {
    forall r :: r in Own(results) ==> r.device in env.allocatable
  }

  predicate HeadIsMig(env: Env, op: Op) {
    && op.Preparing? && op.stage.Create? && op.stage.left != []
    && op.stage.left[0].device in env.allocatable
    && env.allocatable[op.stage.left[0].device].deviceType == MigDynamicDevice
  }

  ghost predicate MayCreate(env: Env, s: Node, k: GiKey, ci: nat, hw: Hw, made: bool) {
    HeadIsMig(env, s.op) &&
    var a := env.allocatable[s.op.stage.left[0].device];
    Creates(s.hw, a.spec, a.size, k, ci, hw, made)
  }

  predicate OutsideEnabled(s: Node, o: OutsideEvent) {
    match o
    case ApiCreate(key, uid) => key !in s.api && uid !in s.born
    case ApiDelete(key) => key in s.api
    case Reboot(boot) => boot != "" && boot != s.boot && (s.file.Some? ==> s.file.value.bootId != boot)
    case CudaCache(uid) =>
      Completed(s, uid) && uid !in s.touched && uid in s.home && HomeDir(s.home[uid]) in s.tree && s.tree[HomeDir(s.home[uid])].Dir?
  }

  predicate ProcessEnabled(env: Env, s: Node, p: ProcessEvent) {
    match p
    case Startup => s.op == Idle
    case Stop => s.op != Idle
    case CallPrepare(_) => s.up && s.op == Idle
    case CallUnprepare(_) => s.up && s.op == Idle
    case CallTeardown => s.up && s.op == Idle && env.mode == DynamicMig
  }

  predicate CleanupEnabled(s: Node, c: CleanupEvent) {
    match c
    case Snapshot(i) => s.up && i !in s.cleaners
    case Look(i, uid, _) => i in s.cleaners && s.cleaners[i].Scanning? && uid in s.cleaners[i].todo
    case SelfUnprepare(i) => s.up && i in s.cleaners && s.cleaners[i].Pending? && s.op == Idle
    case Drop(i) => i in s.cleaners
  }

  ghost predicate PrepareEnabled(env: Env, s: Node, q: PrepareEvent) {
    s.up && s.op.Preparing? &&
    var c, stage := s.op.claim, s.op.stage;
    match q
    case ReturnPrepared => stage == Enter && Completed(s, c.uid)
    case AdmitPrepare => stage == Enter && !Completed(s, c.uid) && (env.mode != HamiMode ==> NoOverlap(ClaimsOf(s), c))
    case EndRollback => stage.Rollback? && stage.todo == []
    case WriteStarted => stage == Begin && s.file.Some?
    case PlaceHook(home, tree, placedAll) =>
      env.mode == HamiMode && stage.Hook? && Own(c.results) != [] && Places(s.tree, HomeDir(home), c.uid, tree, placedAll)
    case EndHook(order) =>
      && stage.Hook? && (env.mode == HamiMode ==> stage.placed || Own(c.results) == []) && multiset(order) == multiset(Own(c.results))
      && AllAllocatable(env, c.results)
    case CreateMig(k, ci, hw, made) => MayCreate(env, s, k, ci, hw, made)
    case Take => stage.Create? && stage.left != [] && stage.left[0].device in env.allocatable && !HeadIsMig(env, s.op)
    case WriteCompleted => stage.Create? && stage.left == [] && s.file.Some?
  }

  ghost predicate UnprepareEnabled(s: Node, u: UnprepareEvent) {
    s.up && s.op.Unpreparing? &&
    var uid, stage := s.op.uid, s.op.ustage;
    match u
    case ReturnUnknown => stage == Arrive && uid !in ClaimsOf(s)
    case AdmitUnprepare => stage == Arrive && (Started(s, uid) || Completed(s, uid))
    case ReleaseHook(tree, done) => stage == Unhook && Releases(s.tree, uid, tree, done)
    case EndSweep => stage.Sweep? && stage.todo == []
    case WriteForget => stage == Forget && s.file.Some?
  }

  ghost predicate JobEnabled(env: Env, s: Node, j: JobEvent) {
    s.up &&
    match j
    case SkipJob =>
      Todo(s.op) != [] && Todo(s.op)[0].ByName? && (ParseCanonicalName(Todo(s.op)[0].device) == None || Todo(s.op)[0].device in Spare(s.op))
    case FindNothing(lost) =>
      && Todo(s.op) != [] && Todo(s.op)[0].ByName? && Todo(s.op)[0].device !in Spare(s.op) && ParseCanonicalName(Todo(s.op)[0].device).Some?
      && ParseCanonicalName(Todo(s.op)[0].device).value.minor in env.gpus
      && (lost || forall k :: !IsMatch(s.hw, k, ParseCanonicalName(Todo(s.op)[0].device).value))
    case DeleteMig(t, hw, done) => t.gpu in env.gpus && MayDelete(env, s, t) && Deletes(s.hw, t, hw, done)
  }

  ghost predicate Enabled(env: Env, s: Node, e: Event) {
    match e
    case Outside(o) => OutsideEnabled(s, o)
    case Process(p) => ProcessEnabled(env, s, p)
    case Cleanup(c) => CleanupEnabled(s, c)
    case Prepare(q) => PrepareEnabled(env, s, q)
    case Unprepare(u) => UnprepareEnabled(s, u)
    case Delete(j) => JobEnabled(env, s, j)
  }

  function PreparedFor(env: Env, uid: Uid, r: AllocResult, live: Option<LiveTuple>): PreparedDevice
    requires r.device in env.allocatable
  {
    DeviceConfigs.PreparedOf(uid, r, env.allocatable[r.device]).(live := live)
  }

  /** The MIG device made for the first of the results left to prepare. */
  function MadeDevice(env: Env, op: Op, k: GiKey, ci: nat): PreparedDevice
    requires HeadIsMig(env, op)
  {
    PreparedFor(env, op.claim.uid, op.stage.left[0], Some(LiveTuple(k.gpu, k.id, ci)))
  }

  function OwnerAfter(s: Node, k: GiKey, hw: Hw): map<GiKey, Uid>
    requires s.op.Preparing?
  {
    if k in hw.gis && k !in s.hw.gis then s.owner[k := s.op.claim.uid] else s.owner
  }

  function AfterCreate(env: Env, s: Node, k: GiKey, ci: nat, hw: Hw, made: bool): Node
    requires HeadIsMig(env, s.op)
  {
    var st := s.op.stage;
    s.(hw := hw, owner := OwnerAfter(s, k, hw),
       op := if made then Preparing(s.op.claim, Create(st.left[1..], st.done + [MadeDevice(env, s.op, k, ci)])) else Idle)
  }

  /** History of ownership after the hardware has changed. */
  function OwnersIn(owner: map<GiKey, Uid>, hw: Hw): map<GiKey, Uid> {
    map k | k in owner && k in hw.gis :: owner[k]
  }

  /** Prepare after its admission checks. */
  function AdmittedPrepare(env: Env, s: Node): Op
    requires s.op.Preparing?
  {
    var c, claims := s.op.claim, ClaimsOf(s);
    if env.mode != HamiMode && Started(s, c.uid)
      then Preparing(c, Rollback(NameJobs(claims[c.uid].results), CompletedNames(claims)))
      else Preparing(c, Begin)
  }

  /** Unprepare of a claim found in the checkpoint. With HAMi support off and dynamic MIG off, a partially
      prepared claim is swept all the same: the code logs "noop" but goes on. */
  function AdmittedUnprepare(env: Env, s: Node): UnprepareStage
    requires s.op.Unpreparing? && s.op.uid in ClaimsOf(s)
  {
    var claims := ClaimsOf(s);
    var entry := claims[s.op.uid];
    if entry.state == PrepareCompleted then
      match env.mode
      case HamiMode => if entry.devices == [] then Forget else Unhook
      case DynamicMig => Sweep(TupleJobs(entry.devices), {})
      case NeitherMode => Sweep([], {})
    else if env.mode == HamiMode then Unhook
    else Sweep(NameJobs(entry.results), CompletedNames(claims))
  }

  function StartedKeys(claims: map<Uid, Entry>): map<Uid, ObjectKey> {
    map u | u in claims && claims[u].state == PrepareStarted :: ObjectKey(claims[u].namespace, claims[u].name)
  }

  /** unprepareIfStale: what the lookup of one snapshot entry leads to. */
  function Looked(s: Node, i: nat, uid: Uid, lookupFailed: bool): Cleaner
    requires i in s.cleaners && s.cleaners[i].Scanning? && uid in s.cleaners[i].todo
  {
    var key, rest := s.cleaners[i].todo[uid], s.cleaners[i].todo - {uid};
    if key.name == "" || lookupFailed then Scanning(rest)
    else if key in s.api && s.api[key] == uid then Scanning(rest)
    else Pending(uid, rest)
  }

  function OutsideApply(s: Node, o: OutsideEvent): Node
    requires OutsideEnabled(s, o)
  {
    match o
    case ApiCreate(key, uid) => s.(api := s.api[key := uid], born := s.born[uid := key])
    case ApiDelete(key) => s.(api := s.api - {key})
    case Reboot(boot) =>
      s.(up := false, boot := boot, hw := Hw(map[], s.hw.on), owner := map[], op := Idle, cleaners := map[])
    case CudaCache(uid) =>
      var d := HomeDir(s.home[uid]);
      s.(tree := s.tree[d := Dir(s.tree[d].files[CacheFile(uid) := Regular])])
  }

  /** initCheckpoint: keep a file of this boot, adopt one without boot id, replace any other. */
  function Settle(s: Node): (t: Node)
    ensures t.up && t.file.Some? && t.file.value.bootId == s.boot
    ensures t == s.(up := true, file := t.file, touched := t.touched, homes := t.homes, home := t.home)
    ensures if s.file.Some? && s.file.value.bootId in {"", s.boot}
            then ClaimsOf(t) == ClaimsOf(s) && t.touched == s.touched && t.homes == s.homes && t.home == s.home
            else ClaimsOf(t) == map[] && t.touched == {} && t.homes == map[] && t.home == map[]
  {
    match Store.StartupTask(s.file, s.boot)
    case None => s.(up := true)
    case Some(m) =>
      var t := s.(up := true, file := Store.Apply(m, s.file));
      if m.Replace? then t.(touched := {}, homes := map[], home := map[]) else t
  }

  function ProcessApply(env: Env, s: Node, p: ProcessEvent): Node
    requires ProcessEnabled(env, s, p)
  {
    match p
    case Startup => Settle(s)
    case Stop => s.(op := Idle)
    case CallPrepare(c) => s.(op := Preparing(c, Enter))
    case CallUnprepare(uid) => s.(op := Unpreparing(uid, false, Arrive))
    case CallTeardown => s.(op := TearingDown(CompletedNames(ClaimsOf(s))))
  }

  function CleanupApply(s: Node, c: CleanupEvent): Node
    requires CleanupEnabled(s, c)
  {
    match c
    case Snapshot(i) => s.(cleaners := s.cleaners[i := Scanning(StartedKeys(ClaimsOf(s)))])
    case Look(i, uid, lookupFailed) => s.(cleaners := s.cleaners[i := Looked(s, i, uid, lookupFailed)])
    case SelfUnprepare(i) =>
      s.(cleaners := s.cleaners[i := Scanning(s.cleaners[i].todo)], op := Unpreparing(s.cleaners[i].uid, true, Arrive))
    case Drop(i) => s.(cleaners := s.cleaners - {i})
  }

  ghost function PrepareApply(env: Env, s: Node, q: PrepareEvent): Node
    requires PrepareEnabled(env, s, q)
  {
    var c, stage := s.op.claim, s.op.stage;
    match q
    case ReturnPrepared => s.(op := Idle)
    case AdmitPrepare => s.(op := AdmittedPrepare(env, s))
    case EndRollback => s.(op := Preparing(c, Begin))
    case WriteStarted => WithClaims(s, ClaimsOf(s)[c.uid := StartedEntry(c)]).(op := Preparing(c, Hook(false)))
    case PlaceHook(home, tree, placedAll) =>
      s.(tree := tree, homes := s.homes[c.uid := HomesOf(s, c.uid) + {home}], home := s.home[c.uid := home],
         op := if placedAll then Preparing(c, Hook(true)) else Idle)
    case EndHook(order) => s.(op := Preparing(c, Create(order, [])))
    case CreateMig(k, ci, hw, made) => AfterCreate(env, s, k, ci, hw, made)
    case Take =>
      s.(op := Preparing(c, Create(stage.left[1..], stage.done + [PreparedFor(env, c.uid, stage.left[0], None)])))
    case WriteCompleted =>
      WithClaims(s, ClaimsOf(s)[c.uid := CompletedEntry(c, stage.done)]).(op := Idle, touched := s.touched - {c.uid})
  }

  ghost function UnprepareApply(env: Env, s: Node, u: UnprepareEvent): Node
    requires UnprepareEnabled(s, u)
  {
    var uid, self := s.op.uid, s.op.selfInitiated;
    match u
    case ReturnUnknown => s.(op := Idle)
    case AdmitUnprepare =>
      s.(op := Unpreparing(uid, self, AdmittedUnprepare(env, s)), touched := if Completed(s, uid) then s.touched + {uid} else s.touched)
    case ReleaseHook(tree, done) => s.(tree := tree, op := if done then Unpreparing(uid, self, Forget) else Idle)
    case EndSweep => s.(op := Unpreparing(uid, self, Forget))
    case WriteForget =>
      WithClaims(s, ClaimsOf(s) - {uid}).(op := Idle, touched := s.touched - {uid}, homes := s.homes - {uid}, home := s.home - {uid})
  }

  ghost function JobApply(env: Env, s: Node, j: JobEvent): Node
    requires JobEnabled(env, s, j)
  {
    match j
    case SkipJob => s.(op := NextJob(s.op))
    case FindNothing(_) => s.(op := NextJob(s.op))
    case DeleteMig(t, hw, done) =>
      s.(hw := hw, owner := OwnersIn(s.owner, hw),
         op := if s.op.TearingDown? then s.op else if done then NextJob(s.op) else Idle)
  }

  ghost function Apply(env: Env, s: Node, e: Event): Node
    requires Enabled(env, s, e)
  {
    match e
    case Outside(o) => OutsideApply(s, o)
    case Process(p) => ProcessApply(env, s, p)
    case Cleanup(c) => CleanupApply(s, c)
    case Prepare(q) => PrepareApply(env, s, q)
    case Unprepare(u) => UnprepareApply(env, s, u)
    case Delete(j) => JobApply(env, s, j)
  }

  /** The state after a run; None if some event was not enabled. */
  ghost function Run(env: Env, s: Node, es: seq<Event>): Option<Node>
    decreases es
  {
    if es == [] then Some(s)
    else if Enabled(env, s, es[0]) then Run(env, Apply(env, s, es[0]), es[1..])
    else None
  }
}
