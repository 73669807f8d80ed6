/** The plugin's DeviceState as it runs (cmd/hami-kubelet-plugin/device_state.go, cleanup.go): every execution of its methods,
    with failures anywhere and other parties acting meanwhile, is a run of the state machine in Node. */
module DeviceStates {
  import opened Base
  import opened Claims
  import opened CheckpointFile
  import opened HamiCore
  import opened Hypotheses
  import opened MigNames
  import opened Node
  import opened NodeBasics
  import opened Nvlib
  import DeviceConfigs
  import Store = CheckpointStore

  /** What has happened to a node: the states it went through and the events between them. */
  datatype History = History(states: seq<Node>, events: seq<Event>)

  ghost predicate StepOf(env: Env, s: Node, e: Event, t: Node) {
    Enabled(env, s, e) && t == Apply(env, s, e)
  }

  ghost predicate IsHistory(env: Env, h: History) {
    && |h.states| == |h.events| + 1
    && forall i {:trigger h.events[i]} :: 0 <= i < |h.events| ==> StepOf(env, h.states[i], h.events[i], h.states[i + 1])
  }

  /** A history is a run of the state machine. */
  lemma {:induction false} HistoryIsRun(env: Env, h: History)
    requires IsHistory(env, h)
    ensures Run(env, h.states[0], h.events) == Some(h.states[|h.events|])
    decreases |h.events|
  {
    if h.events != [] {
      var rest := History(h.states[1..], h.events[1..]);
      assert StepOf(env, h.states[0], h.events[0], h.states[1]);
      forall i {:trigger rest.events[i]} | 0 <= i < |rest.events| ensures StepOf(env, rest.states[i], rest.events[i], rest.states[i + 1]) {
        assert rest.events[i] == h.events[i + 1];
      }
      HistoryIsRun(env, rest);
    }
  }

  predicate Extends(h: History, g: History) {
    h.states <= g.states && h.events <= g.events
  }

  /** What startup makes of the file. */
  function Settled(file: Option<Store.File>, boot: string): Option<Store.File> {
    match Store.StartupTask(file, boot)
    case None => file
    case Some(m) => Store.Apply(m, file)
  }

  /** Passthrough devices are announced only when passthrough is enabled. */
  predicate NoVfio(env: Env) {
    forall d :: d in env.allocatable ==> env.allocatable[d].deviceType != VfioDevice
  }

  lemma SettleWrites(s: Node)
    ensures Settle(s).file == Settled(s.file, s.boot)
    ensures Settle(s).hw == s.hw && Settle(s).tree == s.tree && Settle(s).api == s.api && Settle(s).born == s.born && Settle(s).op == s.op
  {
  }

  /** The API server's resource claims, and the UIDs it has ever issued. */
  class ApiServer {
    var claims: map<ObjectKey, Uid>
    var issued: set<Uid>

    constructor (claims: map<ObjectKey, Uid>, issued: set<Uid>)
      ensures this.claims == claims && this.issued == issued
    {
      this.claims, this.issued := claims, issued;
    }
  }

  class DeviceState {
    const env: Env
    /** Feature gates beyond the mode: passthrough, and device health checks. */
    const passthrough: bool
    const healthCheck: bool
    const checkpointManager: CheckpointManager
    const nvdevlib: DeviceLib
    const hamiCoreManager: HamiCoreManager
    const apiServer: ApiServer
    /** The node's state, and how it got there. */
    ghost var node: Node
    ghost var log: History

    constructor (env: Env, passthrough: bool, healthCheck: bool, checkpointManager: CheckpointManager, nvdevlib: DeviceLib,
                 hamiCoreManager: HamiCoreManager, apiServer: ApiServer, ghost node: Node)
      requires EnvOk(env) && (passthrough || NoVfio(env)) && checkpointManager.Valid()
      requires node.file == checkpointManager.Stored() && node.hw == nvdevlib.Hardware() && node.tree == hamiCoreManager.Dirs()
      requires node.api == apiServer.claims && node.born.Keys == apiServer.issued && nvdevlib.gpus == env.gpus
      ensures Valid() && this.node == node && log == History([node], [])
      ensures this.env == env && this.nvdevlib == nvdevlib && this.hamiCoreManager == hamiCoreManager && this.apiServer == apiServer
    {
      this.env, this.passthrough, this.healthCheck, this.checkpointManager := env, passthrough, healthCheck, checkpointManager;
      this.nvdevlib, this.hamiCoreManager, this.apiServer := nvdevlib, hamiCoreManager, apiServer;
      this.node, this.log := node, History([node], []);
    }

    /** The stores are as the history says. */
    ghost predicate Valid()
      reads this, checkpointManager, nvdevlib, hamiCoreManager, apiServer
    {
      && EnvOk(env) && (passthrough || NoVfio(env)) && checkpointManager.Valid() && node.file == checkpointManager.Stored()
      && node.hw == nvdevlib.Hardware() && nvdevlib.gpus == env.gpus && node.tree == hamiCoreManager.Dirs()
      && node.api == apiServer.claims && node.born.Keys == apiServer.issued && Recorded()
    }

    ghost predicate Recorded()
      reads this
    {
      IsHistory(env, log) && log.states[|log.events|] == node
    }

    /** One more event of the history. */
    ghost method Record(e: Event)
      requires Recorded() && Enabled(env, node, e)
      modifies this`node, this`log
      ensures node == Apply(env, old(node), e) && Extends(old(log), log) && Recorded()
    {
      node := Apply(env, node, e);
      log := History(log.states + [node], log.events + [e]);
      forall i {:trigger log.events[i]} | 0 <= i < |log.events| ensures StepOf(env, log.states[i], log.events[i], log.states[i + 1]) {
        assert i < |old(log).events| ==> log.events[i] == old(log).events[i];
      }
    }

    ghost method RecordProcess(p: ProcessEvent)
      requires Recorded() && ProcessEnabled(env, node, p)
      modifies this`node, this`log
      ensures node == ProcessApply(env, old(node), p) && Extends(old(log), log) && Recorded()
    {
      Record(Process(p));
    }

    ghost method RecordPrepare(q: PrepareEvent)
      requires Recorded() && PrepareEnabled(env, node, q)
      modifies this`node, this`log
      ensures node == PrepareApply(env, old(node), q) && Extends(old(log), log) && Recorded()
    {
      Record(Event.Prepare(q));
    }

    ghost method RecordUnprepare(u: UnprepareEvent)
      requires Recorded() && UnprepareEnabled(node, u)
      modifies this`node, this`log
      ensures node == UnprepareApply(env, old(node), u) && Extends(old(log), log) && Recorded()
    {
      Record(Event.Unprepare(u));
    }

    ghost method RecordJob(j: JobEvent)
      requires Recorded() && JobEnabled(env, node, j)
      modifies this`node, this`log
      ensures node == JobApply(env, old(node), j) && Extends(old(log), log) && Recorded()
    {
      Record(Delete(j));
    }

    /** This process's cleanup worker is number 0; only its own steps move it. */
    static function Worker(s: Node): Option<Cleaner> {
      if 0 in s.cleaners then Some(s.cleaners[0]) else None
    }

    static predicate SameWorker(s: Node, t: Node) {
      t.up == s.up && Worker(t) == Worker(s)
    }

    /** Nothing of this node's own has changed between two states. */
    static ghost predicate OnlyOthersMoved(s: Node, t: Node) {
      t == s.(api := t.api, born := t.born, cleaners := t.cleaners) && SameWorker(s, t)
    }

    /** What other parties do without the lock: claims come and go at the API server, cleanup threads look around. */
    method Elsewhere()
      requires Valid()
      modifies this`node, this`log, apiServer
      ensures Valid() && OnlyOthersMoved(old(node), node) && Extends(old(log), log)
    {
      var n: int := *;
      while n > 0
        invariant Valid() && OnlyOthersMoved(old(node), node) && Extends(old(log), log)
      {
        n := n - 1;
        OneElsewhere();
      }
    }

    method OneElsewhere()
      requires Valid()
      modifies this`node, this`log, apiServer
      ensures Valid() && OnlyOthersMoved(old(node), node) && Extends(old(log), log)
    {
      var key: ObjectKey, uid: Uid := *, *;
      if key in apiServer.claims {
        apiServer.claims := apiServer.claims - {key};
        Record(Outside(ApiDelete(key)));
      } else if uid !in apiServer.issued {
        apiServer.claims, apiServer.issued := apiServer.claims[key := uid], apiServer.issued + {uid};
        Record(Outside(ApiCreate(key, uid)));
      }
      LookAround();
    }

    ghost method LookAround()
      requires Valid()
      modifies this`node, this`log
      ensures Valid() && OnlyOthersMoved(old(node), node) && Extends(old(log), log)
    {
      var c: CleanupEvent := *;
      if c.i != 0 && !c.SelfUnprepare? && CleanupEnabled(node, c) {
        Record(Event.Cleanup(c));
      }
    }

    // ------------------------------------------------------------ checkpoint

    /** getCheckpoint under the file lock. */
    method GetCheckpoint() returns (cp: Result<map<Uid, Entry>>)
      requires Valid()
      modifies this`node, this`log, apiServer
      ensures Valid() && OnlyOthersMoved(old(node), node) && Extends(old(log), log)
      ensures cp.Ok? ==> node.file.Some? && cp.value == ClaimsOf(node)
    {
      Elsewhere();
      var got := checkpointManager.GetCheckpoint();
      if got.Err? {
        return Err;
      }
      cp := Ok(got.value.v2.claims);
    }

    /** Every error return of an operation that holds the lock. */
    ghost method Fail()
      requires Valid() && node.op != Idle
      modifies this`node, this`log
      ensures Valid() && node == old(node).(op := Idle) && Extends(old(log), log)
    {
      RecordProcess(Stop);
    }

    // --------------------------------------------------------------- startup

    /** initCheckpoint. */
    method InitCheckpoint(bootId: string) returns (ok: bool)
      requires Valid() && node.op == Idle && node.boot == bootId
      modifies this`node, this`log, checkpointManager
      ensures Valid() && node.op == Idle && Extends(old(log), log)
      ensures if ok then node == Settle(old(node)) else node == old(node)
    {
      ok := SettleFile(bootId);
      if ok {
        SettleWrites(node);
        RecordStartup();
      }
    }

    /** The file after startup's decision. */
    method SettleFile(bootId: string) returns (ok: bool)
      requires checkpointManager.Valid()
      modifies checkpointManager
      ensures checkpointManager.Valid()
      ensures checkpointManager.Stored() == if ok then Settled(old(checkpointManager.Stored()), bootId) else old(checkpointManager.Stored())
    {
      if checkpointManager.disk.Some? {
        var cp := checkpointManager.GetCheckpoint();
        if cp.Err? {
          return false;
        }
        if cp.value.v2.bootId == bootId {
          return true;
        }
        if cp.value.v2.bootId == "" {
          ok := checkpointManager.UpdateCheckpoint(Store.SetBoot(bootId));
          return;
        }
      }
      ok := checkpointManager.ReplaceCheckpoint(bootId);
    }

    ghost method RecordStartup()
      requires Recorded() && node.op == Idle
      modifies this`node, this`log
      ensures node == Settle(old(node)) && Extends(old(log), log) && Recorded()
    {
      RecordProcess(Startup);
    }

    // ---------------------------------------------------------------- checks

    /** validateNoOverlappingPreparedDevices. */
    method ValidateNoOverlap(claims: map<Uid, Entry>, claim: Claim) returns (ok: bool)
      ensures ok <==> NoOverlap(claims, claim)
    {
      var requested := NonAdminDevices(claim.results);
      if requested == {} {
        return true;
      }
      var rest := claims.Keys;
      while rest != {}
        invariant rest <= claims.Keys
        invariant forall u :: u in claims && u !in rest && u != claim.uid && claims[u].state == PrepareCompleted ==>
                    NonAdminSet(claims[u].results) * requested == {}
        decreases |rest|
      {
        var uid :| uid in rest;
        rest := rest - {uid};
        if uid == claim.uid || claims[uid].state != PrepareCompleted {
          continue;
        }
        var prepared := NonAdminDevices(claims[uid].results);
        if prepared * requested != {} {
          return false;
        }
      }
      ok := true;
    }

    // -------------------------------------------------------------- deletions

    /** Nothing but hardware, the lock holder's progress and other parties' state has changed. */
    static ghost predicate OnlyHardwareMoved(s: Node, t: Node) {
      t == s.(hw := t.hw, owner := t.owner, op := t.op, api := t.api, born := t.born, cleaners := t.cleaners) && SameWorker(s, t)
    }

    /** Gone for good: there is no such GPU instance, or its GPU is not in MIG mode. */
    static ghost predicate Gone(hw: Hw, t: LiveTuple) {
      t.Key() !in hw.gis || t.gpu !in hw.on
    }

    /** deleteMigDevice for the job at hand; on failure the operation ends. */
    method DeleteDevice(t: LiveTuple) returns (ok: bool)
      requires Valid() && node.up && Todo(node.op) != [] && MayDelete(env, node, t)
      modifies this`node, this`log, nvdevlib
      ensures Valid() && OnlyHardwareMoved(old(node), node) && Extends(old(log), log)
      ensures node.op == if ok then NextJob(old(node).op) else Idle
      ensures ok ==> Gone(node.hw, t)
      ensures node.hw.gis.Keys <= old(node).hw.gis.Keys && node.hw.on <= old(node).hw.on
    {
      ok := nvdevlib.DeleteMigDevice(t);
      RecordDeletion(t, nvdevlib.Hardware(), ok);
    }

    /** A deletion, or its failure for want of a handle. */
    ghost method RecordDeletion(t: LiveTuple, hw: Hw, done: bool)
      requires Recorded() && node.up && Todo(node.op) != [] && MayDelete(env, node, t) && Deletes(node.hw, t, hw, done)
      requires t.gpu !in env.gpus ==> !done && hw == node.hw
      modifies this`node, this`log
      ensures Recorded() && Extends(old(log), log)
      ensures node == old(node).(hw := hw, owner := node.owner, op := if done then NextJob(old(node).op) else Idle)
    {
      if t.gpu in env.gpus {
        RecordJob(DeleteMig(t, hw, done));
      } else {
        RecordProcess(Stop);
      }
    }

    ghost predicate AtName(name: string, completed: set<string>)
      reads this
    {
      node.up && Todo(node.op) != [] && Todo(node.op)[0] == ByName(name) && Spare(node.op) == completed
    }

    ghost method PassOver(name: string, completed: set<string>)
      requires Valid() && AtName(name, completed) && (ParseCanonicalName(name) == None || name in completed)
      modifies this`node, this`log
      ensures Valid() && node == old(node).(op := NextJob(old(node).op)) && Extends(old(log), log)
    {
      RecordJob(SkipJob);
    }

    ghost method NothingThere(name: string, completed: set<string>, lost: bool)
      requires Valid() && AtName(name, completed) && ParseCanonicalName(name).Some? && name !in completed
      requires ParseCanonicalName(name).value.minor in env.gpus
      requires lost || forall k :: !IsMatch(node.hw, k, ParseCanonicalName(name).value)
      modifies this`node, this`log
      ensures Valid() && node == old(node).(op := NextJob(old(node).op)) && Extends(old(log), log)
    {
      RecordJob(FindNothing(lost));
    }

    /** deleteMigDevIfExistsAndNotUsedByCompletedClaim, after parsing the name; on failure the operation ends. */
    method DeleteByName(name: string, completed: set<string>) returns (ok: bool)
      requires Valid() && AtName(name, completed)
      modifies this`node, this`log, nvdevlib
      ensures Valid() && OnlyHardwareMoved(old(node), node) && Extends(old(log), log)
      ensures node.op == if ok then NextJob(old(node).op) else Idle
    {
      var ms := ParseCanonicalName(name);
      if ms == None || name in completed {
        PassOver(name, completed);
        return true;
      }
      var slots := nvdevlib.DeviceSlots(ms.value.minor);
      var found, lost := nvdevlib.FindMigDevBySpec(ms.value, slots);
      if found.Err? {
        Fail();
        return false;
      }
      if found.value.None? {
        NothingThere(name, completed, lost);
        return true;
      }
      FoundMayBeDeleted(env, node, name, found.value.value);
      ok := DeleteDevice(found.value.value);
    }

    static lemma FoundMayBeDeleted(env: Env, s: Node, name: string, t: LiveTuple)
      requires Todo(s.op) != [] && Todo(s.op)[0] == ByName(name) && name !in Spare(s.op) && ParseCanonicalName(name).Some?
      requires IsMatch(s.hw, t.Key(), ParseCanonicalName(name).value) && (s.hw.gis[t.Key()].ci == Some(t.ci) || t.ci == 0)
      ensures MayDelete(env, s, t)
    {
    }

    method RollBackOne(results: seq<AllocResult>, i: nat, completed: set<string>, ghost op: Op) returns (ok: bool)
      requires Valid() && node.up && Deleting(op) && i < |results| && node.op == WithTodo(op, NameJobs(results[i..])) && Spare(op) == completed
      modifies this`node, this`log, nvdevlib, apiServer
      ensures Valid() && OnlyHardwareMoved(old(node), node) && Extends(old(log), log)
      ensures node.op == if ok then WithTodo(op, NameJobs(results[i + 1..])) else Idle
    {
      assert results[i..] == [results[i]] + results[i + 1..];
      WithTodoFacts(op, NameJobs(results[i..]));
      Elsewhere();
      ok := DeleteByName(results[i].device, completed);
    }

    /** The loop of unpreparePartiallyPrepairedClaim. */
    method RollBack(results: seq<AllocResult>, completed: set<string>) returns (ok: bool)
      requires Valid() && node.up && Deleting(node.op) && Todo(node.op) == NameJobs(results) && Spare(node.op) == completed
      modifies this`node, this`log, nvdevlib, apiServer
      ensures Valid() && OnlyHardwareMoved(old(node), node) && Extends(old(log), log)
      ensures node.op == if ok then WithTodo(old(node).op, []) else Idle
    {
      var i := 0;
      assert results[0..] == results;
      WithTodoFacts(node.op, NameJobs(results));
      while i < |results|
        invariant 0 <= i <= |results|
        invariant Valid() && OnlyHardwareMoved(old(node), node) && Extends(old(log), log)
        invariant node.op == WithTodo(old(node).op, NameJobs(results[i..]))
      {
        ok := RollBackOne(results, i, completed, old(node).op);
        if !ok {
          return;
        }
        i := i + 1;
      }
      ok := true;
    }

    ghost predicate UnpreparingAt(uid: Uid, stage: UnprepareStage)
      reads this
    {
      node.up && node.op.Unpreparing? && node.op.uid == uid && node.op.ustage == stage
    }

    /** The sweep of a completed claim's devices, from the i-th on. */
    static function FromDevice(devices: seq<PreparedDevice>, i: nat): UnprepareStage
      requires i <= |devices|
    {
      Sweep(TupleJobs(devices[i..]), {})
    }

    method DeleteNext(uid: Uid, devices: seq<PreparedDevice>, i: nat) returns (ok: bool)
      requires i < |devices| && Valid() && UnpreparingAt(uid, FromDevice(devices, i))
      modifies this`node, this`log, nvdevlib, apiServer
      ensures Valid() && OnlyHardwareMoved(old(node), node) && Extends(old(log), log)
      ensures if ok then UnpreparingAt(uid, FromDevice(devices, i + 1)) else node.op == Idle
      ensures ok && devices[i].live.Some? ==> Gone(node.hw, devices[i].live.value)
      ensures node.hw.gis.Keys <= old(node).hw.gis.Keys && node.hw.on <= old(node).hw.on
    {
      TupleJobsFrom(devices, i);
      Elsewhere();
      ok := true;
      if devices[i].live.Some? {
        ok := DeleteDevice(devices[i].live.value);
      }
    }

    static ghost predicate GoneUpTo(hw: Hw, devices: seq<PreparedDevice>, n: nat) {
      forall j :: 0 <= j < n && j < |devices| && devices[j].live.Some? ==> Gone(hw, devices[j].live.value)
    }

    static lemma GoneMore(hw: Hw, hw': Hw, devices: seq<PreparedDevice>, i: nat)
      requires GoneUpTo(hw, devices, i) && hw'.gis.Keys <= hw.gis.Keys && hw'.on <= hw.on
      requires i < |devices| && devices[i].live.Some? ==> Gone(hw', devices[i].live.value)
      ensures GoneUpTo(hw', devices, i + 1)
    {
    }

    /** The MIG part of unprepareDevices. */
    method DeleteDevices(uid: Uid, devices: seq<PreparedDevice>) returns (ok: bool)
      requires Valid() && UnpreparingAt(uid, Sweep(TupleJobs(devices), {}))
      modifies this`node, this`log, nvdevlib, apiServer
      ensures Valid() && OnlyHardwareMoved(old(node), node) && Extends(old(log), log)
      ensures if ok then UnpreparingAt(uid, Sweep([], {})) else node.op == Idle
      ensures ok ==> forall d :: d in devices && d.live.Some? ==> Gone(node.hw, d.live.value)
    {
      var i := 0;
      assert devices[0..] == devices;
      while i < |devices|
        invariant 0 <= i <= |devices|
        invariant Valid() && OnlyHardwareMoved(old(node), node) && Extends(old(log), log)
        invariant UnpreparingAt(uid, FromDevice(devices, i))
        invariant GoneUpTo(node.hw, devices, i)
      {
        ghost var before := node.hw;
        ok := DeleteNext(uid, devices, i);
        if !ok {
          return;
        }
        GoneMore(before, node.hw, devices, i);
        i := i + 1;
      }
      assert devices[i..] == [];
      ok := true;
    }

    // --------------------------------------------------------------- unprepare

    /** Nothing but the hook tree, the lock holder's progress and other parties' state has changed. */
    static ghost predicate OnlyTreeMoved(s: Node, t: Node) {
      t == s.(tree := t.tree, op := t.op, api := t.api, born := t.born, cleaners := t.cleaners) && SameWorker(s, t)
    }

    /** Remove the claim's directories; on failure the operation ends. */
    method ReleaseHooks(uid: Uid) returns (ok: bool)
      requires Valid() && UnpreparingAt(uid, Unhook)
      modifies this`node, this`log, hamiCoreManager
      ensures Valid() && OnlyTreeMoved(old(node), node) && Extends(old(log), log)
      ensures if ok then node.tree == Released(old(node).tree, uid) && UnpreparingAt(uid, Forget) else node.op == Idle
    {
      var listing := hamiCoreManager.ReadDir();
      ok := hamiCoreManager.Unprepare(uid, listing);
      RecordUnprepare(ReleaseHook(hamiCoreManager.Dirs(), ok));
    }

    ghost method FinishSweep(uid: Uid, completed: set<string>)
      requires Valid() && UnpreparingAt(uid, Sweep([], completed))
      modifies this`node, this`log
      ensures Valid() && OnlyOthersMoved(old(node).(op := node.op), node) && Extends(old(log), log) && UnpreparingAt(uid, Forget)
    {
      RecordUnprepare(EndSweep);
    }

    /** deleteClaimFromCheckpoint; either way the operation ends. */
    method ForgetClaim(uid: Uid) returns (ok: bool)
      requires Valid() && UnpreparingAt(uid, Forget)
      modifies this`node, this`log, checkpointManager
      ensures Valid() && node.op == Idle && Extends(old(log), log) && SameWorker(old(node), node)
      ensures ClaimsOf(node) == if ok then ClaimsOf(old(node)) - {uid} else ClaimsOf(old(node))
      ensures node.hw == old(node).hw && node.tree == old(node).tree
    {
      ok := checkpointManager.UpdateCheckpoint(Store.Delete(uid));
      if ok {
        RecordUnprepare(WriteForget);
      } else {
        Fail();
      }
    }

    /** The MIG sweep of a partially prepared claim. */
    method SweepStarted(uid: Uid, entry: Entry, completed: set<string>) returns (ok: bool)
      requires Valid() && UnpreparingAt(uid, Sweep(NameJobs(entry.results), completed))
      modifies this`node, this`log, nvdevlib, apiServer
      ensures Valid() && OnlyHardwareMoved(old(node), node) && Extends(old(log), log)
      ensures if ok then UnpreparingAt(uid, Forget) else node.op == Idle
    {
      ok := RollBack(entry.results, completed);
      if ok {
        FinishSweep(uid, completed);
      }
    }

    /** The MIG sweep of a completed claim, with dynamic MIG on. */
    method SweepCompleted(uid: Uid, entry: Entry) returns (ok: bool)
      requires Valid() && UnpreparingAt(uid, Sweep(TupleJobs(entry.devices), {}))
      modifies this`node, this`log, nvdevlib, apiServer
      ensures Valid() && OnlyHardwareMoved(old(node), node) && Extends(old(log), log)
      ensures if ok then UnpreparingAt(uid, Forget) else node.op == Idle
      ensures ok ==> forall d :: d in entry.devices && d.live.Some? ==> Gone(node.hw, d.live.value)
    {
      ok := DeleteDevices(uid, entry.devices);
      if ok {
        FinishSweep(uid, {});
      }
    }

    /** unprepareDevices or the rollback, outside HAMi mode. */
    method SweepClaim(uid: Uid, entry: Entry, completed: set<string>) returns (ok: bool)
      requires Valid() && UnpreparingAt(uid, SweepFor(entry, completed))
      modifies this`node, this`log, nvdevlib, apiServer
      ensures Valid() && OnlyHardwareMoved(old(node), node) && Extends(old(log), log)
      ensures if ok then UnpreparingAt(uid, Forget) else node.op == Idle
      ensures ok && entry.state == PrepareCompleted && env.mode == DynamicMig ==>
                forall d :: d in entry.devices && d.live.Some? ==> Gone(node.hw, d.live.value)
    {
      if entry.state != PrepareCompleted {
        ok := SweepStarted(uid, entry, completed);
      } else if env.mode == DynamicMig {
        ok := SweepCompleted(uid, entry);
      } else {
        ok := true;
        FinishSweep(uid, {});
      }
    }

    function SweepFor(entry: Entry, completed: set<string>): UnprepareStage {
      if entry.state != PrepareCompleted then Sweep(NameJobs(entry.results), completed)
      else if env.mode == DynamicMig then Sweep(TupleJobs(entry.devices), {})
      else Sweep([], {})
    }

    ghost method Admit(uid: Uid)
      requires Valid() && UnpreparingAt(uid, Arrive) && uid in ClaimsOf(node) && ClaimsOf(node)[uid].state != Unset
      modifies this`node, this`log
      ensures Valid() && Extends(old(log), log) && UnpreparingAt(uid, AdmittedUnprepare(env, old(node)))
      ensures node == old(node).(op := node.op, touched := node.touched)
    {
      RecordUnprepare(AdmitUnprepare);
    }

    /** Free what the claim holds: directories in HAMi mode, MIG devices otherwise. */
    method FreeDevices(uid: Uid, cp: map<Uid, Entry>) returns (ok: bool)
      requires Valid() && UnpreparingAt(uid, Arrive) && cp == ClaimsOf(node) && uid in cp && cp[uid].state != Unset
      modifies this`node, this`log, nvdevlib, hamiCoreManager, apiServer
      ensures Valid() && Extends(old(log), log) && SameWorker(old(node), node)
      ensures node.file == old(node).file
      ensures if ok then UnpreparingAt(uid, Forget) else node.op == Idle
      ensures env.mode == HamiMode ==> node.hw == old(node).hw
      ensures ok && env.mode == HamiMode && (cp[uid].state == PrepareStarted || cp[uid].devices != []) ==>
                node.tree == Released(old(node).tree, uid)
      ensures env.mode != HamiMode ==> node.tree == old(node).tree
      ensures ok && env.mode == DynamicMig && cp[uid].state == PrepareCompleted ==>
                forall d :: d in cp[uid].devices && d.live.Some? ==> Gone(node.hw, d.live.value)
    {
      var entry := cp[uid];
      Admit(uid);
      if env.mode == HamiMode {
        ok := true;
        if entry.state == PrepareStarted || entry.devices != [] {
          ok := ReleaseHooks(uid);
        }
      } else {
        ok := SweepClaim(uid, entry, CompletedNames(cp));
      }
    }

    /** Unprepare under the lock, from its arrival on. A claim the checkpoint does not know is no error. */
    method UnprepareLocked(uid: Uid) returns (ok: bool)
      requires Valid() && UnpreparingAt(uid, Arrive)
      modifies this`node, this`log, checkpointManager, nvdevlib, hamiCoreManager, apiServer
      ensures Valid() && node.op == Idle && Extends(old(log), log) && SameWorker(old(node), node)
      ensures ClaimsOf(node) == if ok then ClaimsOf(old(node)) - {uid} else ClaimsOf(old(node))
      ensures env.mode == HamiMode ==> node.hw == old(node).hw
      ensures env.mode != HamiMode ==> node.tree == old(node).tree
      ensures uid !in ClaimsOf(old(node)) ==> node.hw == old(node).hw && node.tree == old(node).tree
      ensures ok && env.mode == HamiMode && uid in ClaimsOf(old(node))
              && (ClaimsOf(old(node))[uid].state == PrepareStarted || ClaimsOf(old(node))[uid].devices != []) ==>
                node.tree == Released(old(node).tree, uid)
      ensures ok && env.mode == DynamicMig && Completed(old(node), uid) ==>
                forall d :: d in ClaimsOf(old(node))[uid].devices && d.live.Some? ==> Gone(node.hw, d.live.value)
    {
      var cp := GetCheckpoint();
      if cp.Err? || (uid in cp.value && cp.value[uid].state == Unset) {
        Fail();
        return false;
      }
      if uid !in cp.value {
        RecordUnprepare(ReturnUnknown);
        assert ClaimsOf(node) == ClaimsOf(old(node)) - {uid};
        return true;
      }
      ok := FreeDevices(uid, cp.value);
      if ok {
        ok := ForgetClaim(uid);
      }
    }

    /** nodeUnprepareResource: Unprepare as the kubelet calls it. */
    method Unprepare(uid: Uid) returns (ok: bool)
      requires Valid() && node.up && node.op == Idle
      modifies this`node, this`log, checkpointManager, nvdevlib, hamiCoreManager, apiServer
      ensures Valid() && node.op == Idle && Extends(old(log), log)
      ensures ClaimsOf(node) == if ok then ClaimsOf(old(node)) - {uid} else ClaimsOf(old(node))
      ensures ok && env.mode == HamiMode && uid in ClaimsOf(old(node))
              && (ClaimsOf(old(node))[uid].state == PrepareStarted || ClaimsOf(old(node))[uid].devices != []) ==>
                node.tree == Released(old(node).tree, uid)
      ensures ok && env.mode == DynamicMig && Completed(old(node), uid) ==>
                forall d :: d in ClaimsOf(old(node))[uid].devices && d.live.Some? ==> Gone(node.hw, d.live.value)
    {
      RecordProcess(CallUnprepare(uid));
      ok := UnprepareLocked(uid);
    }

    // ----------------------------------------------------------------- prepare

    ghost predicate PreparingAt(claim: Claim, stage: PrepareStage)
      reads this
    {
      node.up && node.op == Preparing(claim, stage)
    }

    /** GetCDIContainerEdits for every config group in HAMi mode: a fresh directory with the claim's marker each time. The
        pod found for the claim, and so the directory, is whatever the lookup says. */
    method PlaceHooks(claim: Claim, groups: map<nat, seq<nat>>) returns (ok: bool)
      requires Valid() && PreparingAt(claim, Hook(false)) && env.mode == HamiMode && (groups != map[] ==> Own(claim.results) != [])
      modifies this`node, this`log, hamiCoreManager, apiServer
      ensures Valid() && Extends(old(log), log) && node.file == old(node).file && node.hw == old(node).hw
      ensures if ok then PreparingAt(claim, Hook(groups != map[])) else node.op == Idle
    {
      var todo, placed := groups.Keys, false;
      while todo != {}
        invariant todo <= groups.Keys && (placed <==> todo != groups.Keys)
        invariant Valid() && Extends(old(log), log) && node.file == old(node).file && node.hw == old(node).hw
        invariant PreparingAt(claim, Hook(placed))
        decreases |todo|
      {
        var c :| c in todo;
        todo := todo - {c};
        ok := PlaceOne(claim);
        if !ok {
          return;
        }
        placed := true;
      }
      ok := true;
    }

    method PlaceOne(claim: Claim) returns (ok: bool)
      requires Valid() && node.up && node.op.Preparing? && node.op.claim == claim && node.op.stage.Hook? && env.mode == HamiMode && Own(claim.results) != []
      modifies this`node, this`log, hamiCoreManager, apiServer
      ensures Valid() && Extends(old(log), log) && node.file == old(node).file && node.hw == old(node).hw
      ensures if ok then PreparingAt(claim, Hook(true)) else node.op == Idle
    {
      Elsewhere();
      if * {
        Fail();  // no pod found for the claim, or its label could not be set
        return false;
      }
      var home: Home := *;
      ok := hamiCoreManager.PlaceMarker(HomeDir(home), claim.uid);
      RecordPrepare(PlaceHook(home, hamiCoreManager.Dirs(), ok));
    }

    /** The results of this driver in the order in which config selection groups them; the configs are applied. */
    method SelectConfigs(claim: Claim, possible: seq<DeviceConfigs.AllocationConfig>) returns (r: Result<seq<AllocResult>>)
      requires Valid() && PreparingAt(claim, Hook(false))
      modifies this`node, this`log, hamiCoreManager, apiServer
      ensures Valid() && Extends(old(log), log) && node.file == old(node).file && node.hw == old(node).hw
      ensures match r
              case Ok(order) => multiset(order) == multiset(Own(claim.results)) && PreparingAt(claim, Create(order, []))
              case Err => node.op == Idle
    {
      var own := DeviceConfigs.GetOpaqueDeviceConfigs(DriverName, possible);
      if own.Err? {
        Fail();
        return Err;
      }
      var q := DeviceConfigs.Request(claim.uid, claim.results, env.allocatable, healthCheck);
      var configs := DeviceConfigs.Defaults(passthrough) + own.value;
      var grouped := DeviceConfigs.GroupByConfig(q, configs);
      if grouped.Err? {
        Fail();
        return Err;
      }
      var applied := ApplyConfigs(claim, q, configs, grouped.value);
      if !applied {
        return Err;
      }
      var order, picked := DeviceConfigs.ListResults(q, configs, grouped.value);
      DeviceConfigs.ListedAreOwn(q, passthrough, own.value, order, picked);
      DeviceConfigs.OwnAreUsable(q, configs);
      r := Ok(order);
      EndConfigs(claim, order, grouped.value != map[]);
    }

    /** Every config group is normalised, validated and applied; in HAMi mode that places the claim's directory. */
    method ApplyConfigs(claim: Claim, q: DeviceConfigs.Request, configs: seq<DeviceConfigs.OpaqueDeviceConfig>, groups: map<nat, seq<nat>>) returns (ok: bool)
      requires Valid() && PreparingAt(claim, Hook(false)) && q.results == claim.results
      requires DeviceConfigs.IsGrouping(q, configs, groups, |q.results|) && DeviceConfigs.NoneEmpty(groups)
      modifies this`node, this`log, hamiCoreManager, apiServer
      ensures Valid() && Extends(old(log), log) && node.file == old(node).file && node.hw == old(node).hw
      ensures if ok then PreparingAt(claim, Hook(env.mode == HamiMode && groups != map[])) else node.op == Idle
    {
      ok := *;
      if !ok {
        Fail();
      } else if env.mode == HamiMode {
        DeviceConfigs.GroupedMeansOwn(q, configs, groups);
        ok := PlaceHooks(claim, groups);
      }
    }

    ghost method EndConfigs(claim: Claim, order: seq<AllocResult>, grouped: bool)
      requires Valid() && PreparingAt(claim, Hook(env.mode == HamiMode && grouped)) && multiset(order) == multiset(Own(claim.results))
      requires (!grouped ==> Own(claim.results) == []) && AllAllocatable(env, claim.results)
      modifies this`node, this`log
      ensures Valid() && Extends(old(log), log) && node == old(node).(op := Preparing(claim, Create(order, [])))
    {
      RecordPrepare(EndHook(order));
    }

    /** The result of preparing one allocation result: what it says, and a live MIG device exactly when one was asked for. */
    static predicate IsPreparedFor(env: Env, uid: Uid, r: AllocResult, d: PreparedDevice) {
      && r.device in env.allocatable && d == PreparedFor(env, uid, r, d.live)
      && (d.live.Some? <==> env.allocatable[r.device].deviceType == MigDynamicDevice)
    }

    ghost method RecordCreation(claim: Claim, left: seq<AllocResult>, done: seq<PreparedDevice>, k: GiKey, ci: nat, hw: Hw, made: bool)
      requires Recorded() && PreparingAt(claim, Create(left, done)) && HeadIsMig(env, node.op) && MayCreate(env, node, k, ci, hw, made)
      modifies this`node, this`log
      ensures Recorded() && Extends(old(log), log)
      ensures node == AfterCreate(env, old(node), k, ci, hw, made)
    {
      RecordPrepare(CreateMig(k, ci, hw, made));
    }

    ghost method RecordTake(claim: Claim, left: seq<AllocResult>, done: seq<PreparedDevice>)
      requires Recorded() && PreparingAt(claim, Create(left, done)) && left != [] && left[0].device in env.allocatable && !HeadIsMig(env, node.op)
      modifies this`node, this`log
      ensures Recorded() && Extends(old(log), log)
      ensures node == old(node).(op := Preparing(claim, Create(left[1..], done + [PreparedFor(env, claim.uid, left[0], None)])))
    {
      RecordPrepare(Take);
    }

    /** One device of prepareDevices; a dynamic MIG device is created. */
    method PrepareOne(claim: Claim, left: seq<AllocResult>, done: seq<PreparedDevice>) returns (r: Result<PreparedDevice>)
      requires Valid() && PreparingAt(claim, Create(left, done)) && left != []
      modifies this`node, this`log, nvdevlib, apiServer
      ensures Valid() && OnlyHardwareMoved(old(node), node) && Extends(old(log), log)
      ensures match r
              case Ok(d) => PreparingAt(claim, Create(left[1..], done + [d])) && IsPreparedFor(env, claim.uid, left[0], d)
              case Err => node.op == Idle
    {
      Elsewhere();
      if left[0].device !in env.allocatable {
        Fail();
        return Err;
      }
      var a := env.allocatable[left[0].device];
      if a.deviceType == MigDynamicDevice {
        var made, k, ci := nvdevlib.CreateMigDevice(a.spec, a.size);
        RecordCreation(claim, left, done, k, ci, nvdevlib.Hardware(), made.Ok?);
        r := if made.Ok? then Ok(PreparedFor(env, claim.uid, left[0], Some(made.value))) else Err;
      } else {
        RecordTake(claim, left, done);
        r := Ok(PreparedFor(env, claim.uid, left[0], None));
      }
    }

    /** prepareDevices, in the order in which the config groups list the results. */
    method CreateDevices(claim: Claim, order: seq<AllocResult>) returns (r: Result<seq<PreparedDevice>>)
      requires Valid() && PreparingAt(claim, Create(order, []))
      modifies this`node, this`log, nvdevlib, apiServer
      ensures Valid() && OnlyHardwareMoved(old(node), node) && Extends(old(log), log)
      ensures match r
              case Ok(devices) =>
                && PreparingAt(claim, Create([], devices)) && |devices| == |order|
                && forall i :: 0 <= i < |order| ==> IsPreparedFor(env, claim.uid, order[i], devices[i])
              case Err => node.op == Idle
    {
      var i, devices := 0, [];
      assert order[0..] == order;
      while i < |order|
        invariant 0 <= i <= |order| && |devices| == i
        invariant Valid() && OnlyHardwareMoved(old(node), node) && Extends(old(log), log)
        invariant PreparingAt(claim, Create(order[i..], devices))
        invariant forall j :: 0 <= j < i ==> IsPreparedFor(env, claim.uid, order[j], devices[j])
      {
        var d := PrepareOne(claim, order[i..], devices);
        if d.Err? {
          return Err;
        }
        assert order[i..][1..] == order[i + 1..];
        devices := devices + [d.value];
        i := i + 1;
      }
      assert order[i..] == [];
      r := Ok(devices);
    }

    ghost method AdmitPreparation(claim: Claim, cp: map<Uid, Entry>)
      requires Valid() && PreparingAt(claim, Enter) && cp == ClaimsOf(node) && !Completed(node, claim.uid) && (env.mode != HamiMode ==> NoOverlap(cp, claim))
      modifies this`node, this`log
      ensures Valid() && Extends(old(log), log) && OnlyHardwareMoved(old(node), node) && PreparingAt(claim, FirstStage(claim, cp))
    {
      RecordPrepare(AdmitPrepare);
    }

    /** Where a new preparation begins. */
    function FirstStage(claim: Claim, cp: map<Uid, Entry>): PrepareStage {
      if env.mode != HamiMode && claim.uid in cp && cp[claim.uid].state == PrepareStarted
        then Rollback(NameJobs(cp[claim.uid].results), CompletedNames(cp)) else Begin
    }

    ghost method FinishRollBack(claim: Claim, completed: set<string>)
      requires Valid() && PreparingAt(claim, Rollback([], completed))
      modifies this`node, this`log
      ensures Valid() && Extends(old(log), log) && OnlyHardwareMoved(old(node), node) && PreparingAt(claim, Begin)
    {
      RecordPrepare(EndRollback);
    }

    method RollBackAttempt(claim: Claim, results: seq<AllocResult>, completed: set<string>) returns (ok: bool)
      requires Valid() && PreparingAt(claim, Rollback(NameJobs(results), completed))
      modifies this`node, this`log, nvdevlib, apiServer
      ensures Valid() && OnlyHardwareMoved(old(node), node) && Extends(old(log), log)
      ensures if ok then PreparingAt(claim, Begin) else node.op == Idle
    {
      ok := RollBack(results, completed);
      if ok {
        FinishRollBack(claim, completed);
      }
    }

    /** The rollback of an earlier attempt, if there was one. */
    method MaybeRollBack(claim: Claim, cp: map<Uid, Entry>) returns (ok: bool)
      requires Valid() && PreparingAt(claim, Enter) && cp == ClaimsOf(node) && !Completed(node, claim.uid)
      requires env.mode != HamiMode ==> NoOverlap(cp, claim)
      modifies this`node, this`log, nvdevlib, apiServer
      ensures Valid() && OnlyHardwareMoved(old(node), node) && Extends(old(log), log)
      ensures if ok then PreparingAt(claim, Begin) else node.op == Idle
    {
      AdmitPreparation(claim, cp);
      ok := true;
      if env.mode != HamiMode && claim.uid in cp && cp[claim.uid].state == PrepareStarted {
        ok := RollBackAttempt(claim, cp[claim.uid].results, CompletedNames(cp));
      }
    }

    method MarkStarted(claim: Claim) returns (ok: bool)
      requires Valid() && PreparingAt(claim, Begin)
      modifies this`node, this`log, checkpointManager
      ensures Valid() && Extends(old(log), log)
      ensures ClaimsOf(node) == if ok then ClaimsOf(old(node))[claim.uid := StartedEntry(claim)] else ClaimsOf(old(node))
      ensures if ok then PreparingAt(claim, Hook(false)) else node.op == Idle
    {
      ok := checkpointManager.UpdateCheckpoint(Store.Put(claim.uid, StartedEntry(claim)));
      if ok {
        RecordPrepare(WriteStarted);
      } else {
        Fail();
      }
    }

    method MarkCompleted(claim: Claim, devices: seq<PreparedDevice>) returns (ok: bool)
      requires Valid() && PreparingAt(claim, Create([], devices))
      modifies this`node, this`log, checkpointManager
      ensures Valid() && Extends(old(log), log) && node.op == Idle
      ensures ClaimsOf(node) == if ok then ClaimsOf(old(node))[claim.uid := CompletedEntry(claim, devices)] else ClaimsOf(old(node))
    {
      ok := checkpointManager.UpdateCheckpoint(Store.Put(claim.uid, CompletedEntry(claim, devices)));
      if ok {
        RecordPrepare(WriteCompleted);
      } else {
        Fail();
      }
    }

    /** One device for each result, as asked for. */
    static predicate PreparedAs(env: Env, uid: Uid, order: seq<AllocResult>, devices: seq<PreparedDevice>) {
      |devices| == |order| && forall i :: 0 <= i < |order| ==> IsPreparedFor(env, uid, order[i], devices[i])
    }

    /** What a failed Prepare may have left in the checkpoint. */
    static predicate StartedAtMost(before: map<Uid, Entry>, claim: Claim, after: map<Uid, Entry>) {
      after == before || after == before[claim.uid := StartedEntry(claim)]
    }

    /** The devices are the driver's results, each prepared as asked for. */
    static ghost predicate PreparedForAll(env: Env, claim: Claim, devices: seq<PreparedDevice>) {
      exists order :: multiset(order) == multiset(Own(claim.results)) && PreparedAs(env, claim.uid, order, devices)
    }

    /** prepareDevices and the claim's CDI spec file. */
    method MakeDevices(claim: Claim, possible: seq<DeviceConfigs.AllocationConfig>) returns (r: Result<seq<PreparedDevice>>)
      requires Valid() && PreparingAt(claim, Hook(false))
      modifies this`node, this`log, nvdevlib, hamiCoreManager, apiServer
      ensures Valid() && Extends(old(log), log) && node.file == old(node).file
      ensures match r
              case Ok(devices) => PreparingAt(claim, Create([], devices)) && PreparedForAll(env, claim, devices)
              case Err => node.op == Idle
    {
      var order := SelectConfigs(claim, possible);
      if order.Err? {
        return Err;
      }
      r := CreateDevices(claim, order.value);
      assert r.Ok? ==> PreparedAs(env, claim.uid, order.value, r.value);
      var written := *;
      if r.Ok? && !written {
        Fail();
        r := Err;
      }
    }

    /** Prepare after its checks: write-ahead entry, configs and hooks, devices, final entry. */
    method PrepareChecked(claim: Claim, possible: seq<DeviceConfigs.AllocationConfig>) returns (r: Result<seq<PreparedDevice>>)
      requires Valid() && PreparingAt(claim, Begin)
      modifies this`node, this`log, checkpointManager, nvdevlib, hamiCoreManager, apiServer
      ensures Valid() && node.op == Idle && Extends(old(log), log)
      ensures match r
              case Ok(devices) =>
                ClaimsOf(node) == ClaimsOf(old(node))[claim.uid := CompletedEntry(claim, devices)] && PreparedForAll(env, claim, devices)
              case Err => StartedAtMost(ClaimsOf(old(node)), claim, ClaimsOf(node))
    {
      var ok := MarkStarted(claim);
      if !ok {
        return Err;
      }
      r := MakeDevices(claim, possible);
      if r.Err? {
        return;
      }
      PutTwice(ClaimsOf(old(node)), claim.uid, StartedEntry(claim), CompletedEntry(claim, r.value));
      ok := MarkCompleted(claim, r.value);
      if !ok {
        r := Err;
      }
    }

    static lemma PutTwice(claims: map<Uid, Entry>, u: Uid, a: Entry, b: Entry)
      ensures claims[u := a][u := b] == claims[u := b]
    {
    }

    /** Prepare of a claim that the checkpoint does not know as completed. */
    method PrepareNew(claim: Claim, possible: seq<DeviceConfigs.AllocationConfig>, cp: map<Uid, Entry>) returns (r: Result<seq<PreparedDevice>>)
      requires Valid() && PreparingAt(claim, Enter) && cp == ClaimsOf(node) && !Completed(node, claim.uid)
      modifies this`node, this`log, checkpointManager, nvdevlib, hamiCoreManager, apiServer
      ensures Valid() && node.op == Idle && Extends(old(log), log)
      ensures match r
              case Ok(devices) =>
                && ClaimsOf(node) == cp[claim.uid := CompletedEntry(claim, devices)] && PreparedForAll(env, claim, devices)
                && (env.mode != HamiMode ==> NoOverlap(cp, claim))
              case Err => StartedAtMost(cp, claim, ClaimsOf(node))
    {
      if env.mode != HamiMode {
        var fits := ValidateNoOverlap(cp, claim);
        if !fits {
          Fail();
          return Err;
        }
      }
      var ok := MaybeRollBack(claim, cp);
      if !ok {
        return Err;
      }
      r := PrepareChecked(claim, possible);
    }

    /** What Prepare promises: a completed claim is answered from the record and nothing changes; success records the
        answer, one device for each result of this driver, and overlap with a completed claim is an error; failure leaves at
        most a started entry. */
    static ghost predicate PrepareOutcome(env: Env, s: Node, claim: Claim, t: Node, r: Result<seq<PreparedDevice>>) {
      if Completed(s, claim.uid) then
        OnlyOthersMoved(s.(op := Idle), t) && (r.Ok? ==> r.value == ClaimsOf(s)[claim.uid].devices)
      else if r.Ok? then
        && ClaimsOf(t) == ClaimsOf(s)[claim.uid := CompletedEntry(claim, r.value)]
        && PreparedForAll(env, claim, r.value) && (env.mode != HamiMode ==> NoOverlap(ClaimsOf(s), claim))
      else
        StartedAtMost(ClaimsOf(s), claim, ClaimsOf(t))
    }

    method PrepareLocked(claim: Claim, possible: seq<DeviceConfigs.AllocationConfig>) returns (r: Result<seq<PreparedDevice>>)
      requires Valid() && PreparingAt(claim, Enter)
      modifies this`node, this`log, checkpointManager, nvdevlib, hamiCoreManager, apiServer
      ensures Valid() && node.op == Idle && Extends(old(log), log)
      ensures PrepareOutcome(env, old(node), claim, node, r)
    {
      var cp := GetCheckpoint();
      if cp.Err? {
        Fail();
        return Err;
      }
      if claim.uid in cp.value && cp.value[claim.uid].state == PrepareCompleted {
        AnswerPrepared(claim);
        return Ok(cp.value[claim.uid].devices);
      }
      r := PrepareNew(claim, possible, cp.value);
    }

    /** nodePrepareResource: Prepare as the kubelet calls it. `possible` are the configs that the allocation carries. */
    method Prepare(claim: Claim, possible: seq<DeviceConfigs.AllocationConfig>) returns (r: Result<seq<PreparedDevice>>)
      requires Valid() && node.up && node.op == Idle
      modifies this`node, this`log, checkpointManager, nvdevlib, hamiCoreManager, apiServer
      ensures Valid() && node.op == Idle && Extends(old(log), log)
      ensures PrepareOutcome(env, old(node), claim, node, r)
    {
      BeginPrepare(claim);
      assert ClaimsOf(node) == ClaimsOf(old(node));
      r := PrepareLocked(claim, possible);
    }

    ghost method BeginPrepare(claim: Claim)
      requires Valid() && node.up && node.op == Idle
      modifies this`node, this`log
      ensures Valid() && Extends(old(log), log) && node == old(node).(op := Preparing(claim, Enter))
    {
      RecordProcess(CallPrepare(claim));
    }

    ghost method AnswerPrepared(claim: Claim)
      requires Valid() && PreparingAt(claim, Enter) && Completed(node, claim.uid)
      modifies this`node, this`log
      ensures Valid() && Extends(old(log), log) && node == old(node).(op := Idle)
    {
      RecordPrepare(ReturnPrepared);
    }

    // ------------------------------------------------------- startup teardown

    /** Every device enumerated under an expected name is still there. */
    static ghost predicate ExpectedKept(env: Env, expected: set<string>, h: Hw, h': Hw) {
      forall k :: Complete(h, k) && NameOf(env.profiles, h, k) in expected ==> k in h'.gis && h'.gis[k] == h.gis[k]
    }

    ghost predicate TearingDownWith(expected: set<string>)
      reads this
    {
      node.up && node.op == TearingDown(expected)
    }

    /** DestroyUnknownMIGDevices with obliterateStaleMIGDevices: best effort, the first failure ends it. */
    method DestroyUnknownMigDevices(gpus: seq<nat>)
      requires Valid() && node.up && node.op == Idle && env.mode == DynamicMig
      modifies this`node, this`log, nvdevlib, apiServer
      ensures Valid() && node.op == Idle && OnlyHardwareMoved(old(node), node) && Extends(old(log), log)
      ensures ExpectedKept(env, CompletedNames(ClaimsOf(old(node))), old(node).hw, node.hw)
    {
      BeginTeardown();
      assert ClaimsOf(node) == ClaimsOf(old(node));
      TearDownLocked(gpus);
    }

    method TearDownLocked(gpus: seq<nat>)
      requires Valid() && TearingDownWith(CompletedNames(ClaimsOf(node)))
      modifies this`node, this`log, nvdevlib, apiServer
      ensures Valid() && node.op == Idle && OnlyHardwareMoved(old(node), node) && Extends(old(log), log)
      ensures ExpectedKept(env, CompletedNames(ClaimsOf(old(node))), old(node).hw, node.hw)
    {
      var cp := GetCheckpoint();
      if cp.Ok? {
        TearDownGpus(gpus, CompletedNames(cp.value));
      }
      Fail();
    }

    ghost method BeginTeardown()
      requires Valid() && node.up && node.op == Idle && env.mode == DynamicMig
      modifies this`node, this`log
      ensures Valid() && Extends(old(log), log) && node == old(node).(op := TearingDown(CompletedNames(ClaimsOf(old(node)))))
    {
      RecordProcess(CallTeardown);
    }

    method TearDownGpus(gpus: seq<nat>, expected: set<string>)
      requires Valid() && TearingDownWith(expected)
      modifies this`node, this`log, nvdevlib
      ensures Valid() && TearingDownWith(expected) && OnlyHardwareMoved(old(node), node) && Extends(old(log), log)
      ensures ExpectedKept(env, expected, old(node).hw, node.hw)
    {
      var i, ok := 0, true;
      while i < |gpus| && ok
        invariant Valid() && TearingDownWith(expected) && OnlyHardwareMoved(old(node), node) && Extends(old(log), log)
        invariant ExpectedKept(env, expected, old(node).hw, node.hw)
        decreases |gpus| - i
      {
        ok := TearDownGpu(gpus[i], expected);
        i := i + 1;
      }
    }

    method TearDownGpu(gpu: nat, expected: set<string>) returns (ok: bool)
      requires Valid() && TearingDownWith(expected)
      modifies this`node, this`log, nvdevlib
      ensures Valid() && TearingDownWith(expected) && OnlyHardwareMoved(old(node), node) && Extends(old(log), log)
      ensures ExpectedKept(env, expected, old(node).hw, node.hw)
    {
      var migs, unknown := [], *;
      if unknown {
        return false;  // getGpuInfo failed: it asks for the MIG mode anew
      }
      if gpu in nvdevlib.on {
        migs := nvdevlib.DeviceSlots(gpu);
      }
      var i := 0;
      ok := true;
      while i < |migs| && ok
        invariant 0 <= i <= |migs|
        invariant Valid() && TearingDownWith(expected) && OnlyHardwareMoved(old(node), node) && Extends(old(log), log)
        invariant ExpectedKept(env, expected, old(node).hw, node.hw)
        invariant ok ==> forall j :: i <= j < |migs| ==> Complete(node.hw, migs[j])
        decreases |migs| - i
      {
        ok := DestroyUnlessExpected(migs[i], expected);
        i := i + 1;
      }
      if ok {
        ok := TurnOff(gpu, expected);
      }
    }

    /** One device of the walk. */
    method DestroyUnlessExpected(k: GiKey, expected: set<string>) returns (ok: bool)
      requires Valid() && TearingDownWith(expected) && Complete(node.hw, k)
      modifies this`node, this`log, nvdevlib
      ensures Valid() && TearingDownWith(expected) && OnlyHardwareMoved(old(node), node) && Extends(old(log), log)
      ensures ExpectedKept(env, expected, old(node).hw, node.hw)
      ensures forall l :: l != k && l in old(node).hw.gis ==> l in node.hw.gis && node.hw.gis[l] == old(node).hw.gis[l]
    {
      if NameOf(env.profiles, nvdevlib.Hardware(), k) in expected {
        return true;
      }
      var t := LiveTuple(k.gpu, k.id, nvdevlib.gis[k].ci.value);
      ok := nvdevlib.DeleteMigDevice(t);
      RecordTeardown(t, nvdevlib.Hardware(), ok, expected);
    }

    /** A deletion, or nothing for want of a handle. */
    ghost method RecordTeardown(t: LiveTuple, hw: Hw, done: bool, expected: set<string>)
      requires Recorded() && TearingDownWith(expected) && MayDelete(env, node, t) && Deletes(node.hw, t, hw, done)
      requires t.gpu !in env.gpus ==> hw == node.hw
      modifies this`node, this`log
      ensures Recorded() && Extends(old(log), log) && node == old(node).(hw := hw, owner := node.owner)
    {
      if t.gpu in env.gpus {
        RecordJob(DeleteMig(t, hw, done));
      }
    }

    /** MIG mode goes off on a GPU without devices. */
    method TurnOff(gpu: nat, expected: set<string>) returns (ok: bool)
      requires Valid() && TearingDownWith(expected)
      modifies this`node, this`log, nvdevlib
      ensures Valid() && TearingDownWith(expected) && OnlyHardwareMoved(old(node), node) && Extends(old(log), log)
      ensures node.hw.gis == old(node).hw.gis
    {
      ok := nvdevlib.MaybeDisableMigMode(gpu);
      if node.hw.on != nvdevlib.on {
        RecordTeardown(LiveTuple(gpu, 0, 0), nvdevlib.Hardware(), true, expected);
      }
    }

    // ------------------------------------------------------------------ cleanup

    ghost predicate WorkerAt(c: Cleaner)
      reads this
    {
      node.up && node.op == Idle && Worker(node) == Some(c)
    }

    ghost method RecordSnapshot(cp: map<Uid, Entry>)
      requires Valid() && node.up && node.op == Idle && Worker(node) == None && cp == ClaimsOf(node)
      modifies this`node, this`log
      ensures Valid() && Extends(old(log), log) && WorkerAt(Scanning(StartedKeys(cp))) && ClaimsOf(node) == cp && StartedIn(StartedKeys(cp), cp)
    {
      Record(Event.Cleanup(Snapshot(0)));
    }

    ghost method RecordLook(uid: Uid, todo: map<Uid, ObjectKey>, failed: bool)
      requires Valid() && WorkerAt(Scanning(todo)) && uid in todo
      modifies this`node, this`log
      ensures Valid() && Extends(old(log), log) && node == old(node).(cleaners := node.cleaners)
      ensures WorkerAt(Looked(old(node), 0, uid, failed))
    {
      Record(Event.Cleanup(Look(0, uid, failed)));
    }

    ghost method RecordSelfUnprepare(uid: Uid, todo: map<Uid, ObjectKey>)
      requires Valid() && WorkerAt(Pending(uid, todo))
      modifies this`node, this`log
      ensures Valid() && Extends(old(log), log)
      ensures node == old(node).(op := Unpreparing(uid, true, Arrive), cleaners := old(node).cleaners[0 := Scanning(todo)])
    {
      Record(Event.Cleanup(SelfUnprepare(0)));
    }

    ghost method RecordDrop()
      requires Valid() && Worker(node).Some?
      modifies this`node, this`log
      ensures Valid() && Extends(old(log), log) && node == old(node).(cleaners := old(node).cleaners - {0})
    {
      Record(Event.Cleanup(Drop(0)));
    }

    /** unprepareIfStale's lookup: is the claim of this UID known to be gone? */
    method IsStale(uid: Uid, key: ObjectKey, ghost todo: map<Uid, ObjectKey>) returns (stale: bool)
      requires Valid() && WorkerAt(Scanning(todo)) && uid in todo && todo[uid] == key
      modifies this`node, this`log, apiServer
      ensures Valid() && Extends(old(log), log) && node == old(node).(api := node.api, born := node.born, cleaners := node.cleaners)
      ensures WorkerAt(if stale then Pending(uid, todo - {uid}) else Scanning(todo - {uid}))
      ensures stale ==> key.name != "" && !(key in apiServer.claims && apiServer.claims[key] == uid)
    {
      if key.name == "" {
        RecordLook(uid, todo, false);
        return false;
      }
      Elsewhere();
      var failed := *;
      RecordLook(uid, todo, failed);
      stale := !failed && !(key in apiServer.claims && apiServer.claims[key] == uid);
    }

    /** The entries that a cleanup pass may remove: started, with a name. */
    static predicate OnlyNamedStartedRemoved(before: map<Uid, Entry>, after: map<Uid, Entry>) {
      && (forall u :: u in after ==> u in before && after[u] == before[u])
      && (forall u :: u in before && u !in after ==> before[u].state == PrepareStarted && before[u].name != "")
    }

    /** cleanup(): every started claim of a snapshot is looked up; those found stale are unprepared. Errors are left to
        the next pass. */
    method Cleanup()
      requires Valid() && node.up && node.op == Idle && Worker(node) == None
      modifies this`node, this`log, checkpointManager, nvdevlib, hamiCoreManager, apiServer
      ensures Valid() && node.op == Idle && Worker(node) == None && Extends(old(log), log)
      ensures OnlyNamedStartedRemoved(ClaimsOf(old(node)), ClaimsOf(node))
    {
      var cp := GetCheckpoint();
      if cp.Ok? {
        CleanupFrom(cp.value);
      }
    }

    /** A pass over a snapshot just taken. */
    method CleanupFrom(cp: map<Uid, Entry>)
      requires Valid() && node.up && node.op == Idle && Worker(node) == None && cp == ClaimsOf(node)
      modifies this`node, this`log, checkpointManager, nvdevlib, hamiCoreManager, apiServer
      ensures Valid() && node.op == Idle && Worker(node) == None && Extends(old(log), log)
      ensures OnlyNamedStartedRemoved(cp, ClaimsOf(node))
    {
      RecordSnapshot(cp);
      var todo := StartedKeys(cp);
      CleanUpAll(cp, todo);
    }

    /** The snapshot entries still to look up are started claims with their names. */
    static predicate StartedIn(todo: map<Uid, ObjectKey>, cp: map<Uid, Entry>) {
      forall u :: u in todo ==> u in cp && cp[u].state == PrepareStarted && todo[u].name == cp[u].name
    }

    static lemma StartedInRest(todo: map<Uid, ObjectKey>, cp: map<Uid, Entry>, uid: Uid)
      requires StartedIn(todo, cp)
      ensures StartedIn(todo - {uid}, cp) && (todo - {uid}).Keys == todo.Keys - {uid}
    {
    }

    /** The loop over the snapshot. */
    method CleanUpAll(cp: map<Uid, Entry>, started: map<Uid, ObjectKey>)
      requires Valid() && WorkerAt(Scanning(started)) && cp == ClaimsOf(node) && StartedIn(started, cp)
      modifies this`node, this`log, checkpointManager, nvdevlib, hamiCoreManager, apiServer
      ensures Valid() && node.op == Idle && Worker(node) == None && Extends(old(log), log)
      ensures OnlyNamedStartedRemoved(cp, ClaimsOf(node))
    {
      var todo, rest := started, started.Keys;
      while rest != {}
        invariant Valid() && WorkerAt(Scanning(todo)) && Extends(old(log), log)
        invariant OnlyNamedStartedRemoved(cp, ClaimsOf(node))
        invariant rest == todo.Keys && StartedIn(todo, cp)
        decreases |rest|
      {
        var uid :| uid in rest;
        CleanUpOne(cp, uid, todo);
        StartedInRest(todo, cp, uid);
        todo, rest := todo - {uid}, rest - {uid};
      }
      RecordDrop();
    }

    method CleanUpOne(cp: map<Uid, Entry>, uid: Uid, todo: map<Uid, ObjectKey>)
      requires Valid() && WorkerAt(Scanning(todo)) && uid in todo && OnlyNamedStartedRemoved(cp, ClaimsOf(node)) && StartedIn(todo, cp)
      modifies this`node, this`log, checkpointManager, nvdevlib, hamiCoreManager, apiServer
      ensures Valid() && WorkerAt(Scanning(todo - {uid})) && Extends(old(log), log) && OnlyNamedStartedRemoved(cp, ClaimsOf(node))
    {
      ghost var before := ClaimsOf(node);
      UnprepareIfStale(uid, todo);
      RemovedOneMore(cp, before, ClaimsOf(node), uid);
    }

    static lemma RemovedOneMore(cp: map<Uid, Entry>, before: map<Uid, Entry>, after: map<Uid, Entry>, uid: Uid)
      requires OnlyNamedStartedRemoved(cp, before)
      requires after == before || (uid in cp && cp[uid].state == PrepareStarted && cp[uid].name != "" && after == before - {uid})
      ensures OnlyNamedStartedRemoved(cp, after)
    {
    }

    /** unprepareIfStale. */
    method UnprepareIfStale(uid: Uid, todo: map<Uid, ObjectKey>)
      requires Valid() && WorkerAt(Scanning(todo)) && uid in todo
      modifies this`node, this`log, checkpointManager, nvdevlib, hamiCoreManager, apiServer
      ensures Valid() && WorkerAt(Scanning(todo - {uid})) && Extends(old(log), log)
      ensures ClaimsOf(node) == ClaimsOf(old(node)) || (todo[uid].name != "" && ClaimsOf(node) == ClaimsOf(old(node)) - {uid})
    {
      var stale := IsStale(uid, todo[uid], todo);
      assert ClaimsOf(node) == ClaimsOf(old(node));
      if stale {
        UnprepareStale(uid, todo - {uid});
      }
    }

    method UnprepareStale(uid: Uid, ghost todo: map<Uid, ObjectKey>)
      requires Valid() && WorkerAt(Pending(uid, todo))
      modifies this`node, this`log, checkpointManager, nvdevlib, hamiCoreManager, apiServer
      ensures Valid() && WorkerAt(Scanning(todo)) && Extends(old(log), log)
      ensures ClaimsOf(node) in {ClaimsOf(old(node)), ClaimsOf(old(node)) - {uid}}
    {
      RecordSelfUnprepare(uid, todo);
      var ok := UnprepareLocked(uid);
    }
  }

  lemma TupleJobsFrom(devices: seq<PreparedDevice>, i: nat)
    requires i < |devices|
    ensures var jobs, rest := TupleJobs(devices[i..]), TupleJobs(devices[i + 1..]);
            if devices[i].live.Some? then jobs != [] && jobs[0] == ByTuple(devices[i].live.value) && jobs[1..] == rest else jobs == rest
  {
    assert devices[i..][0] == devices[i] && devices[i..][1..] == devices[i + 1..];
  }
}
