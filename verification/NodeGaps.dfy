/** Dynamic MIG: what is lost without a hypothesis, and what is lost with all of them. Every loss is shown by a run from
    a fresh node, under all the other hypotheses. */
module NodeGaps {
  import opened Base
  import opened Claims
  import opened Hypotheses
  import opened MigNames
  import opened Node
  import opened NodeAccount
  import opened NodeBasics
  import opened NodeLife
  import opened NodeMaking
  import opened NodeMig
  import opened NodePlacing
  import opened NodeRuns
  import opened NodeSweep
  import opened Nvlib

  // -------------------------------------------------------------- orphans

  /** A GPU instance without compute instance that nobody has recorded. */
  predicate Orphan(s: Node, k: GiKey) {
    && k in s.hw.gis && s.hw.gis[k].ci.None?
    && (forall u, d :: u in ClaimsOf(s) && d in ClaimsOf(s)[u].devices && d.live.Some? ==> d.live.value.Key() != k)
    && (s.op.Preparing? && s.op.stage.Create? ==> forall d :: d in s.op.stage.done && d.live.Some? ==> d.live.value.Key() != k)
  }

  lemma OrphanNotDeleted(env: Env, s: Node, l: LiveTuple, hw: Hw, done: bool, k: GiKey)
    requires Basic(env, s) && Orphan(s, k) && JobEnabled(env, s, DeleteMig(l, hw, done))
    ensures k in hw.gis && hw.gis[k] == s.hw.gis[k]
  {
    assert MayDelete(env, s, l) && Deletes(s.hw, l, hw, done);
    if !s.op.TearingDown? && Todo(s.op)[0].ByTuple? {
      RecordedTarget(env, s);
    }
  }

  lemma RecordedTarget(env: Env, s: Node)
    requires Basic(env, s) && Todo(s.op) != [] && Todo(s.op)[0].ByTuple?
    ensures exists u, d :: u in ClaimsOf(s) && d in ClaimsOf(s)[u].devices && d.live == Some(Todo(s.op)[0].tuple)
  {
    assert Todo(s.op)[0] in Todo(s.op);
    assert s.op.Unpreparing? && s.op.uid in ClaimsOf(s);
    var d :| d in ClaimsOf(s)[s.op.uid].devices && d.live == Some(Todo(s.op)[0].tuple);
  }

  lemma OrphanAfterJob(env: Env, s: Node, j: JobEvent, k: GiKey)
    requires Basic(env, s) && Orphan(s, k) && JobEnabled(env, s, j)
    ensures Orphan(JobApply(env, s, j), k)
  {
    JobEffect(env, s, j);
    assert ClaimsOf(JobApply(env, s, j)) == ClaimsOf(s);
    if j.DeleteMig? {
      OrphanNotDeleted(env, s, j.tuple, j.hw, j.done, k);
    }
  }

  lemma OrphanAfterCreate(env: Env, s: Node, l: GiKey, ci: nat, hw: Hw, made: bool, k: GiKey)
    requires Orphan(s, k) && s.op.Preparing? && MayCreate(env, s, l, ci, hw, made)
    ensures Orphan(AfterCreate(env, s, l, ci, hw, made), k)
  {
    var t := AfterCreate(env, s, l, ci, hw, made);
    assert ClaimsOf(t) == ClaimsOf(s);
    assert made ==> l !in s.hw.gis && MadeDevice(env, s.op, l, ci).live == Some(LiveTuple(l.gpu, l.id, ci));
  }

  /** The entries after a write name no GPU instance that was not recorded or made before. */
  lemma OrphanAfterWrite(s: Node, e: Event, k: GiKey)
    requires Orphan(s, k)
    ensures var claims := EntriesAfter(s, e);
            forall u, d :: u in claims && d in claims[u].devices && d.live.Some? ==> d.live.value.Key() != k
  {
  }

  lemma OrphanAfterQuiet(env: Env, s: Node, q: PrepareEvent, k: GiKey)
    requires Orphan(s, k) && PrepareEnabled(env, s, q) && !q.CreateMig?
    ensures Orphan(PrepareApply(env, s, q), k)
  {
    WritesPrepare(env, s, q);
    PrepareHardware(env, s, q);
    OrphanAfterWrite(s, Prepare(q), k);
    QuietDone(env, s, q);
  }

  /** What a step other than a creation leaves in the list of devices made. */
  lemma QuietDone(env: Env, s: Node, q: PrepareEvent)
    requires PrepareEnabled(env, s, q) && !q.CreateMig?
    ensures var t := PrepareApply(env, s, q);
            t.op.Preparing? && t.op.stage.Create? ==>
              forall d :: d in t.op.stage.done && d.live.Some? ==> s.op.stage.Create? && d in s.op.stage.done
  {
    match q
    case PlaceHook(_, _, _) =>
    case EndHook(_) =>
    case Take =>
    case _ =>
  }

  lemma OrphanAfterPrepare(env: Env, s: Node, q: PrepareEvent, k: GiKey)
    requires Orphan(s, k) && PrepareEnabled(env, s, q)
    ensures Orphan(PrepareApply(env, s, q), k)
  {
    if q.CreateMig? {
      assert MayCreate(env, s, q.k, q.ci, q.hw, q.made);
      OrphanAfterCreate(env, s, q.k, q.ci, q.hw, q.made, k);
    } else {
      OrphanAfterQuiet(env, s, q, k);
    }
  }

  lemma OrphanFrame(s: Node, t: Node, e: Event, k: GiKey)
    requires Orphan(s, k) && t.hw == s.hw && ClaimsOf(t) == EntriesAfter(s, e) && (t.op.Preparing? && t.op.stage.Create? ==> t.op == s.op)
    ensures Orphan(t, k)
  {
    OrphanAfterWrite(s, e, k);
  }

  /** An orphan survives every event other than a reboot: rollback, unprepare, cleanup and startup teardown look for
      complete devices or for recorded tuples. */
  lemma OrphanStays(env: Env, s: Node, e: Event, k: GiKey)
    requires Basic(env, s) && Orphan(s, k) && Enabled(env, s, e) && !IsReboot(e)
    ensures Orphan(Apply(env, s, e), k)
  {
    EntriesChange(env, s, e);
    match e
    case Outside(o) => OutsideHardware(s, o); OrphanFrame(s, OutsideApply(s, o), e, k);
    case Process(p) => ProcessHardware(env, s, p); ProcessClaim(env, s, p); OrphanAfterProcess(env, s, p, k);
    case Cleanup(c) => CleanupHardware(s, c); OrphanFrame(s, CleanupApply(s, c), e, k);
    case Prepare(q) => OrphanAfterPrepare(env, s, q, k);
    case Unprepare(u) => UnprepareHardware(env, s, u); UnprepareClaim(env, s, u); OrphanFrame(s, UnprepareApply(env, s, u), e, k);
    case Delete(j) => OrphanAfterJob(env, s, j, k);
  }

  lemma OrphanAfterProcess(env: Env, s: Node, p: ProcessEvent, k: GiKey)
    requires Orphan(s, k) && ProcessEnabled(env, s, p)
    ensures Orphan(ProcessApply(env, s, p), k)
  {
    WritesProcess(env, s, p);
    ProcessHardware(env, s, p);
    OrphanAfterWrite(s, Process(p), k);
    match p
    case Startup =>
    case _ =>
  }

  lemma {:induction false} OrphanStaysForever(env: Env, s: Node, es: seq<Event>, k: GiKey)
    requires Basic(env, s) && Orphan(s, k) && Run(env, s, es).Some? && forall e :: e in es ==> !IsReboot(e)
    ensures Orphan(Run(env, s, es).value, k)
    decreases es
  {
    if es != [] {
      BasicKept(env, s, es[0]);
      OrphanStays(env, s, es[0], k);
      OrphanStaysForever(env, Apply(env, s, es[0]), es[1..], k);
    }
  }

  /** Meanwhile it blocks every partition that overlaps it: no Prepare of a claim that asks for one can complete. */
  lemma OrphanBlocks(env: Env, s: Node, c: Claim, k: GiKey, r: AllocResult)
    requires EnvOk(env) && env.mode == DynamicMig && BootInv(s) && HwOk(s.hw) && s.up && s.op == Idle
    requires !Completed(s, c.uid) && NoOverlap(ClaimsOf(s), c) && Orphan(s, k)
    requires r in Own(c.results) && IsMig(env, r) && k.gpu == MinorOf(env, r) && Overlap(s.hw.gis[k], PartitionOf(env, r))
    ensures !PrepareCanComplete(env, s, c)
  {
    PrepareCanCompleteIff(env, s, c);
    assert k in RolledBack(s, c) && RolledBack(s, c)[k] == s.hw.gis[k];
    assert r in multiset(Own(c.results)) && !FreeIn(env, RolledBack(s, c), r);
  }

  // -------------------------------------------------------- parts of the runs

  /** A fresh node in dynamic MIG mode: no file to keep, nothing on the GPUs. */
  ghost predicate Fresh(env: Env, s: Node) {
    Initial(s) && !Kept(s) && s.hw.gis == map[] && EnvOk(env) && env.mode == DynamicMig
  }

  /** A result of this driver for a partition. */
  predicate Wants(env: Env, c: Claim, r: AllocResult) {
    c.results == [r] && r.driver == DriverName && IsMig(env, r)
  }

  /** What is announced is on a GPU of the node. */
  lemma OnTheNode(env: Env, r: AllocResult)
    requires EnvOk(env) && IsMig(env, r)
    ensures ParseCanonicalName(r.device) == Some(env.allocatable[r.device].spec) && MinorOf(env, r) in env.gpus
  {
  }

  lemma FreshStart(env: Env, hs: set<Hypothesis>, s: Node)
    requires Fresh(env, s)
    ensures var t := Settle(s);
            && Reachable(env, hs, s, t) && t.up && t.op == Idle && t.file.Some? && ClaimsOf(t) == map[] && t.touched == {}
            && t.hw == s.hw && t.owner == map[]
  {
    ReachStartup(env, hs, s);
  }

  lemma WantedIsAdvertised(env: Env, s: Node, c: Claim, r: AllocResult)
    requires EnvOk(env) && Wants(env, c, r) && c.uid !in ClaimsOf(s)
    ensures AdvertisedClaim(env, s, c) && Own(c.results) == [r] && (UnsharedResults(c.results) <==> !r.adminAccess) && AllAllocatable(env, c.results)
  {
    assert Own([r][1..]) == [];
    assert r in c.results;
  }

  /** The state in which the claim's one device has just been made. */
  function Made(env: Env, s: Node, c: Claim, r: AllocResult, k: GiKey, ci: nat): Node
    requires s.file.Some? && IsMig(env, r)
  {
    AfterCreate(env, Creating(s, c, [r], []), k, ci, WithPartition(env, s.hw, r, k, ci), true)
  }

  function DeviceOf(env: Env, c: Claim, r: AllocResult, k: GiKey, ci: nat): PreparedDevice
    requires IsMig(env, r)
  {
    PreparedFor(env, c.uid, r, Some(LiveTuple(k.gpu, k.id, ci)))
  }

  lemma MadeFacts(env: Env, s: Node, c: Claim, r: AllocResult, k: GiKey, ci: nat)
    requires s.file.Some? && IsMig(env, r) && k !in s.hw.gis
    ensures var t, d := Made(env, s, c, r, k, ci), DeviceOf(env, c, r, k, ci);
            && t.op == Preparing(c, Create([], [d])) && t.hw == WithPartition(env, s.hw, r, k, ci) && t.owner == s.owner[k := c.uid]
            && t.up == s.up && t.touched == s.touched && t.file.Some? && ClaimsOf(t) == ClaimsOf(s)[c.uid := StartedEntry(c)]
  {
    var creating := Creating(s, c, [r], []);
    assert [r][1..] == [] && [] + [DeviceOf(env, c, r, k, ci)] == [DeviceOf(env, c, r, k, ci)];
    assert MadeDevice(env, creating.op, k, ci) == DeviceOf(env, c, r, k, ci);
  }

  lemma DeviceFacts(env: Env, h: Hw, c: Claim, r: AllocResult, k: GiKey, ci: nat)
    requires IsMig(env, r)
    ensures var d := DeviceOf(env, c, r, k, ci);
            d.device == r.device && d.live == Some(LiveTuple(k.gpu, k.id, ci)) && Alive(WithPartition(env, h, r, k, ci), LiveTuple(k.gpu, k.id, ci))
  {
  }

  /** The claim is new, may be prepared, and there is room for its partition under the id of k. */
  ghost predicate CanMake(env: Env, hs: set<Hypothesis>, t: Node, c: Claim, r: AllocResult, k: GiKey) {
    && t.up && t.op == Idle && t.file.Some? && c.uid !in ClaimsOf(t) && NoOverlap(ClaimsOf(t), c)
    && Wants(env, c, r) && (NoMigSharing in hs ==> !r.adminAccess)
    && Identity !in hs && OwnContainers !in hs && (FreshIds in hs ==> IdFree(ClaimsOf(t), k))
    && k !in t.hw.gis && k.gpu == MinorOf(env, r) && FreeIn(env, t.hw.gis, r)
  }

  lemma CreatingFacts(env: Env, hs: set<Hypothesis>, t: Node, c: Claim, r: AllocResult, k: GiKey)
    requires CanMake(env, hs, t, c, r, k)
    ensures var u := Creating(t, c, [r], []);
            && u.up && u.op == Preparing(c, Create([r], [])) && u.hw == t.hw && ClaimsOf(u) == ClaimsOf(t)[c.uid := StartedEntry(c)]
            && (FreshIds in hs ==> IdFree(ClaimsOf(u), k))
  {
  }

  lemma ReachMade(env: Env, hs: set<Hypothesis>, s: Node, t: Node, c: Claim, r: AllocResult, k: GiKey, ci: nat)
    requires Reachable(env, hs, s, t) && EnvOk(env) && env.mode == DynamicMig && CanMake(env, hs, t, c, r, k)
    ensures Reachable(env, hs, s, Made(env, t, c, r, k, ci))
  {
    WantedIsAdvertised(env, t, c, r);
    ReachCreating(env, hs, s, t, c, [r]);
    CreatingFacts(env, hs, t, c, r, k);
    var creating := Creating(t, c, [r], []);
    MayCreateHere(env, creating, c, [r], [], k, ci);
    ReachCreate(env, hs, s, creating, k, ci, WithPartition(env, t.hw, r, k, ci), true);
  }

  /** The claim completed. */
  function Finished(env: Env, s: Node, c: Claim, r: AllocResult, k: GiKey, ci: nat): Node
    requires s.file.Some? && IsMig(env, r)
  {
    Done(Made(env, s, c, r, k, ci), c, [DeviceOf(env, c, r, k, ci)])
  }

  lemma FinishedFacts(env: Env, s: Node, c: Claim, r: AllocResult, k: GiKey, ci: nat)
    requires s.file.Some? && IsMig(env, r) && k !in s.hw.gis
    ensures var t, d := Finished(env, s, c, r, k, ci), DeviceOf(env, c, r, k, ci);
            && t.op == Idle && t.hw == WithPartition(env, s.hw, r, k, ci) && t.owner == s.owner[k := c.uid]
            && t.up == s.up && t.touched == s.touched - {c.uid} && t.file.Some? && ClaimsOf(t) == ClaimsOf(s)[c.uid := CompletedEntry(c, [d])]
  {
    MadeFacts(env, s, c, r, k, ci);
    var d := DeviceOf(env, c, r, k, ci);
    assert ClaimsOf(s)[c.uid := StartedEntry(c)][c.uid := CompletedEntry(c, [d])] == ClaimsOf(s)[c.uid := CompletedEntry(c, [d])];
  }

  lemma ReachFinished(env: Env, hs: set<Hypothesis>, s: Node, t: Node, c: Claim, r: AllocResult, k: GiKey, ci: nat)
    requires Reachable(env, hs, s, t) && EnvOk(env) && env.mode == DynamicMig && CanMake(env, hs, t, c, r, k)
    ensures Reachable(env, hs, s, Finished(env, t, c, r, k, ci))
  {
    ReachMade(env, hs, s, t, c, r, k, ci);
    MadeFacts(env, t, c, r, k, ci);
    ReachCompleted(env, hs, s, Made(env, t, c, r, k, ci), c, [DeviceOf(env, c, r, k, ci)]);
  }

  /** An Unprepare that has destroyed the claim's one device and then fails. */
  function Destroyed(s: Node, u: Uid, l: LiveTuple): Node {
    s.(hw := Hw(s.hw.gis - {l.Key()}, s.hw.on), owner := OwnersIn(s.owner, Hw(s.hw.gis - {l.Key()}, s.hw.on)), touched := s.touched + {u})
  }

  lemma ReachDestroyed(env: Env, hs: set<Hypothesis>, s: Node, t: Node, u: Uid, d: PreparedDevice, l: LiveTuple)
    requires Reachable(env, hs, s, t) && env.mode == DynamicMig && t.up && t.op == Idle
    requires Completed(t, u) && ClaimsOf(t)[u].devices == [d] && d.live == Some(l) && Alive(t.hw, l) && l.gpu in env.gpus
    ensures Reachable(env, hs, s, Destroyed(t, u, l))
  {
    ReachAdmitted(env, hs, s, t, u);
    var admitted := Admitted(env, t, u);
    AdmittedForOne(env, t, u, d, l);
    var hw := Hw(t.hw.gis - {l.Key()}, t.hw.on);
    assert MayDelete(env, admitted, l);
    PlainHolds(env, admitted, Delete(DeleteMig(l, hw, true)), hs);
    ReachJob(env, hs, s, admitted, DeleteMig(l, hw, true));
    var swept := admitted.(hw := hw, owner := OwnersIn(t.owner, hw), op := Unpreparing(u, false, Sweep([], {})));
    assert JobApply(env, admitted, DeleteMig(l, hw, true)) == swept;
    ReachStop(env, hs, s, swept);
  }

  lemma AdmittedForOne(env: Env, t: Node, u: Uid, d: PreparedDevice, l: LiveTuple)
    requires env.mode == DynamicMig && Completed(t, u) && ClaimsOf(t)[u].devices == [d] && d.live == Some(l)
    ensures Admitted(env, t, u) == t.(op := Unpreparing(u, false, Sweep([ByTuple(l)], {})), touched := t.touched + {u})
  {
    var called := t.(op := Unpreparing(u, false, Arrive));
    assert ClaimsOf(called) == ClaimsOf(t);
    OneTuple(d, l);
    assert AdmittedUnprepare(env, called) == Sweep(TupleJobs([d]), {});
  }

  lemma OneTuple(d: PreparedDevice, l: LiveTuple)
    requires d.live == Some(l)
    ensures TupleJobs([d]) == [ByTuple(l)]
  {
    assert [d][1..] == [];
    assert TupleJobs([]) == [];
  }

  // ---------------------------------------------------------- reused ids

  /** FreshIds is needed. u completes; its Unprepare destroys the device and fails; NVML gives v's device the same id; and
      the retry of u's Unprepare destroys the live device of v. */
  lemma ReusedIdDestroysLiveDevice(env: Env, s: Node, cu: Claim, ru: AllocResult, cv: Claim, rv: AllocResult, k: GiKey, ci: nat) returns (t: Node)
    requires Fresh(env, s) && Wants(env, cu, ru) && Wants(env, cv, rv) && cu.uid != cv.uid && ru.device != rv.device
    requires !ru.adminAccess && !rv.adminAccess && MinorOf(env, ru) == MinorOf(env, rv) == k.gpu
    ensures Reachable(env, Sound + Safe - {FreshIds}, s, t)
    ensures var d := DeviceOf(env, cv, rv, k, ci);
            && Completed(t, cv.uid) && cv.uid !in t.touched && ClaimsOf(t)[cv.uid].devices == [d]
            && d.live.Some? && !Alive(t.hw, d.live.value)
  {
    var hs := Sound + Safe - {FreshIds};
    NotAsked(hs);
    FreshStart(env, hs, s);
    var t1 := FinishFirst(env, hs, s, Settle(s), cu, ru, k, ci);
    OnTheNode(env, ru);
    var t2 := DestroyFirst(env, hs, s, t1, cu, ru, k, ci);
    t := ReuseAndRetry(env, hs, s, t2, cu, ru, cv, rv, k, ci);
  }

  lemma NotAsked(hs: set<Hypothesis>)
    requires hs <= Sound + Safe
    ensures Identity !in hs && OwnContainers !in hs
  {
  }

  /** The second half: v completes under the id of u's destroyed device, then u's Unprepare is retried. */
  lemma ReuseAndRetry(env: Env, hs: set<Hypothesis>, s: Node, t: Node, cu: Claim, ru: AllocResult, cv: Claim, rv: AllocResult, k: GiKey, ci: nat)
    returns (t': Node)
    requires Reachable(env, hs, s, t) && EnvOk(env) && env.mode == DynamicMig && t.up && t.op == Idle && t.file.Some? && t.hw.gis == map[]
    requires Wants(env, cu, ru) && Wants(env, cv, rv) && cu.uid != cv.uid && ru.device != rv.device && !rv.adminAccess
    requires t.touched == {cu.uid} && ClaimsOf(t) == map[cu.uid := CompletedEntry(cu, [DeviceOf(env, cu, ru, k, ci)])]
    requires MinorOf(env, rv) == k.gpu && FreshIds !in hs && Identity !in hs && OwnContainers !in hs
    ensures Reachable(env, hs, s, t')
    ensures var d := DeviceOf(env, cv, rv, k, ci);
            && Completed(t', cv.uid) && cv.uid !in t'.touched && ClaimsOf(t')[cv.uid].devices == [d]
            && d.live.Some? && !Alive(t'.hw, d.live.value)
  {
    var du := DeviceOf(env, cu, ru, k, ci);
    OtherDevice(ClaimsOf(t), cu, ru, cv, rv, [du]);
    ReachFinished(env, hs, s, t, cv, rv, k, ci);
    var t3 := Finished(env, t, cv, rv, k, ci);
    FinishedFacts(env, t, cv, rv, k, ci);
    OnTheNode(env, rv);
    t' := RetryDestroys(env, hs, s, t3, cu, du, cv, rv, k, ci, t.hw);
  }

  lemma RetryDestroys(env: Env, hs: set<Hypothesis>, s: Node, t: Node, cu: Claim, du: PreparedDevice, cv: Claim, rv: AllocResult, k: GiKey, ci: nat, h: Hw)
    returns (t': Node)
    requires Reachable(env, hs, s, t) && env.mode == DynamicMig && t.up && t.op == Idle && IsMig(env, rv) && cu.uid != cv.uid
    requires Completed(t, cu.uid) && ClaimsOf(t)[cu.uid].devices == [du] && du.live == Some(LiveTuple(k.gpu, k.id, ci))
    requires Completed(t, cv.uid) && ClaimsOf(t)[cv.uid].devices == [DeviceOf(env, cv, rv, k, ci)] && cv.uid !in t.touched
    requires t.hw == WithPartition(env, h, rv, k, ci) && k.gpu in env.gpus
    ensures Reachable(env, hs, s, t')
    ensures var d := DeviceOf(env, cv, rv, k, ci);
            && Completed(t', cv.uid) && cv.uid !in t'.touched && ClaimsOf(t')[cv.uid].devices == [d]
            && d.live.Some? && !Alive(t'.hw, d.live.value)
  {
    var l := LiveTuple(k.gpu, k.id, ci);
    DeviceFacts(env, h, cv, rv, k, ci);
    ReachDestroyed(env, hs, s, t, cu.uid, du, l);
    t' := Destroyed(t, cu.uid, l);
    assert ClaimsOf(t') == ClaimsOf(t) && l.Key() == k;
  }

  /** A first claim on an empty node completes. */
  lemma FinishFirst(env: Env, hs: set<Hypothesis>, s: Node, t: Node, c: Claim, r: AllocResult, k: GiKey, ci: nat) returns (t': Node)
    requires Reachable(env, hs, s, t) && EnvOk(env) && env.mode == DynamicMig && t.up && t.op == Idle && t.file.Some?
    requires ClaimsOf(t) == map[] && t.hw.gis == map[] && t.touched == {} && Wants(env, c, r) && (NoMigSharing in hs ==> !r.adminAccess)
    requires Identity !in hs && OwnContainers !in hs && k.gpu == MinorOf(env, r)
    ensures Reachable(env, hs, s, t') && t'.up && t'.op == Idle && t'.file.Some? && t'.touched == {}
    ensures ClaimsOf(t') == map[c.uid := CompletedEntry(c, [DeviceOf(env, c, r, k, ci)])] && t'.hw == WithPartition(env, t.hw, r, k, ci)
  {
    ReachFinished(env, hs, s, t, c, r, k, ci);
    FinishedFacts(env, t, c, r, k, ci);
    t' := Finished(env, t, c, r, k, ci);
  }

  /** Its Unprepare destroys the device and fails. */
  lemma DestroyFirst(env: Env, hs: set<Hypothesis>, s: Node, t: Node, c: Claim, r: AllocResult, k: GiKey, ci: nat) returns (t': Node)
    requires Reachable(env, hs, s, t) && env.mode == DynamicMig && t.up && t.op == Idle && t.file.Some? && IsMig(env, r)
    requires ClaimsOf(t) == map[c.uid := CompletedEntry(c, [DeviceOf(env, c, r, k, ci)])]
    requires t.hw.gis == map[k := PartitionOf(env, r).(ci := Some(ci))] && t.touched == {} && k.gpu in env.gpus
    ensures Reachable(env, hs, s, t') && t'.up && t'.op == Idle && t'.file.Some? && t'.touched == {c.uid}
    ensures ClaimsOf(t') == ClaimsOf(t) && t'.hw.gis == map[]
  {
    var l := LiveTuple(k.gpu, k.id, ci);
    DeviceFacts(env, t.hw, c, r, k, ci);
    ReachDestroyed(env, hs, s, t, c.uid, DeviceOf(env, c, r, k, ci), l);
    t' := Destroyed(t, c.uid, l);
    assert l.Key() == k && ClaimsOf(t') == ClaimsOf(t);
  }

  lemma OtherDevice(claims: map<Uid, Entry>, cu: Claim, ru: AllocResult, cv: Claim, rv: AllocResult, devices: seq<PreparedDevice>)
    requires claims == map[cu.uid := CompletedEntry(cu, devices)] && cu.results == [ru] && cv.results == [rv] && ru.device != rv.device
    ensures NoOverlap(claims, cv)
  {
    assert NonAdminSet([ru]) <= {ru.device} && NonAdminSet([rv]) <= {rv.device};
  }

  // ------------------------------------------------- passing over a device

  /** A Prepare that dies when the claim's device has been made. */
  lemma ReachDied(env: Env, hs: set<Hypothesis>, s: Node, t: Node, c: Claim, r: AllocResult, k: GiKey, ci: nat) returns (t': Node)
    requires Reachable(env, hs, s, t) && EnvOk(env) && env.mode == DynamicMig && CanMake(env, hs, t, c, r, k)
    ensures Reachable(env, hs, s, t') && t'.up && t'.op == Idle && t'.file.Some? && t'.touched == t.touched
    ensures ClaimsOf(t') == ClaimsOf(t)[c.uid := StartedEntry(c)] && t'.hw == WithPartition(env, t.hw, r, k, ci) && t'.owner == t.owner[k := c.uid]
  {
    ReachMade(env, hs, s, t, c, r, k, ci);
    MadeFacts(env, t, c, r, k, ci);
    var made := Made(env, t, c, r, k, ci);
    ReachStop(env, hs, s, made);
    t' := made.(op := Idle);
    assert ClaimsOf(t') == ClaimsOf(made);
  }

  /** An Unprepare of a partially prepared claim with one result, in front of its one job. */
  function AtJob(s: Node, u: Uid, name: string): Node {
    s.(op := Unpreparing(u, false, Sweep([ByName(name)], CompletedNames(ClaimsOf(s)))))
  }

  lemma ReachAtJob(env: Env, hs: set<Hypothesis>, s: Node, t: Node, u: Uid, r: AllocResult)
    requires Reachable(env, hs, s, t) && env.mode == DynamicMig && t.up && t.op == Idle && Started(t, u) && ClaimsOf(t)[u].results == [r]
    ensures Reachable(env, hs, s, AtJob(t, u, r.device)) && ClaimsOf(AtJob(t, u, r.device)) == ClaimsOf(t)
  {
    ReachAdmitted(env, hs, s, t, u);
    AdmittedSweepsNames(env, t, u);
    OneName(r);
    assert Admitted(env, t, u) == AtJob(t, u, r.device);
  }

  lemma OneName(r: AllocResult)
    ensures NameJobs([r]) == [ByName(r.device)]
  {
    assert [r][1..] == [];
    assert NameJobs([]) == [];
  }

  /** The job is done without a deletion, and the claim is forgotten. */
  lemma ReachPassedOver(env: Env, hs: set<Hypothesis>, s: Node, t: Node, u: Uid, name: string, j: JobEvent) returns (t': Node)
    requires Reachable(env, hs, s, AtJob(t, u, name)) && t.up && t.file.Some? && !j.DeleteMig?
    requires JobEnabled(env, AtJob(t, u, name), j) && AllHold(env, AtJob(t, u, name), Delete(j), hs)
    ensures Reachable(env, hs, s, t') && t'.up && t'.op == Idle && SameHardware(t, t') && ClaimsOf(t') == ClaimsOf(t) - {u}
  {
    ReachJob(env, hs, s, AtJob(t, u, name), j);
    var swept := t.(op := Unpreparing(u, false, Sweep([], CompletedNames(ClaimsOf(t)))));
    PassedOverIs(env, t, u, name, j);
    ReachForgotten(env, hs, s, swept, u);
    t' := Forgotten(swept, u);
    assert ClaimsOf(swept) == ClaimsOf(t);
  }

  lemma PassedOverIs(env: Env, t: Node, u: Uid, name: string, j: JobEvent)
    requires JobEnabled(env, AtJob(t, u, name), j) && !j.DeleteMig?
    ensures JobApply(env, AtJob(t, u, name), j) == t.(op := Unpreparing(u, false, Sweep([], CompletedNames(ClaimsOf(t)))))
  {
    assert [ByName(name)][1..] == [];
    match j
    case SkipJob =>
    case FindNothing(_) =>
  }

  /** ReliableScan is needed: the slot of a partially prepared claim's live device cannot be read, the rollback takes it for
      empty, and the claim is forgotten while its device lives. */
  lemma UnreadableSlotLosesDevice(env: Env, s: Node, c: Claim, r: AllocResult, k: GiKey, ci: nat) returns (t: Node)
    requires Fresh(env, s) && Wants(env, c, r) && !r.adminAccess && k.gpu == MinorOf(env, r)
    ensures Reachable(env, Sound + Safe - {ReliableScan}, s, t) && t.up && t.op == Idle
    ensures c.uid !in ClaimsOf(t) && Owns(t, c.uid, k) && NameOf(env.profiles, t.hw, k) == r.device
  {
    var hs := Sound + Safe - {ReliableScan};
    NotAsked(hs);
    FreshStart(env, hs, s);
    CanMakeFirst(env, hs, Settle(s), c, r, k);
    var died := ReachDied(env, hs, s, Settle(s), c, r, k, ci);
    NamedAfterMaking(env, died.hw, r, k, ci, Settle(s).hw);
    OnTheNode(env, r);
    t := LoseByName(env, hs, s, died, c.uid, r, k, FindNothing(true));
  }

  lemma CanMakeFirst(env: Env, hs: set<Hypothesis>, t: Node, c: Claim, r: AllocResult, k: GiKey)
    requires t.up && t.op == Idle && t.file.Some? && ClaimsOf(t) == map[] && t.hw.gis == map[]
    requires Wants(env, c, r) && (NoMigSharing in hs ==> !r.adminAccess) && Identity !in hs && OwnContainers !in hs && k.gpu == MinorOf(env, r)
    ensures CanMake(env, hs, t, c, r, k)
  {
  }

  /** The unprepare of a died claim whose one job is passed over: the claim is forgotten, its device stays. */
  lemma LoseByName(env: Env, hs: set<Hypothesis>, s: Node, t: Node, u: Uid, r: AllocResult, k: GiKey, j: JobEvent) returns (t': Node)
    requires Reachable(env, hs, s, t) && env.mode == DynamicMig && t.up && t.op == Idle && t.file.Some?
    requires Started(t, u) && ClaimsOf(t)[u].results == [r] && k in t.owner && t.owner[k] == u
    requires ParseCanonicalName(r.device).Some? && ParseCanonicalName(r.device).value.minor in env.gpus
    requires j == (if r.device in CompletedNames(ClaimsOf(t)) then SkipJob else FindNothing(true)) && (j == SkipJob || ReliableScan !in hs)
    ensures Reachable(env, hs, s, t') && t'.up && t'.op == Idle && u !in ClaimsOf(t') && SameHardware(t, t')
  {
    ReachAtJob(env, hs, s, t, u, r);
    CanPassOver(env, t, u, r.device, j);
    if j == SkipJob {
      PlainHolds(env, AtJob(t, u, r.device), Delete(j), hs);
    } else {
      FindHolds(env, hs, AtJob(t, u, r.device));
    }
    t' := ReachPassedOver(env, hs, s, t, u, r.device, j);
  }

  lemma CanPassOver(env: Env, t: Node, u: Uid, name: string, j: JobEvent)
    requires t.up && ParseCanonicalName(name).Some? && ParseCanonicalName(name).value.minor in env.gpus
    requires j == if name in CompletedNames(ClaimsOf(t)) then SkipJob else FindNothing(true)
    ensures JobEnabled(env, AtJob(t, u, name), j)
  {
  }

  lemma FindHolds(env: Env, hs: set<Hypothesis>, t: Node)
    requires ReliableScan !in hs
    ensures AllHold(env, t, Delete(FindNothing(true)), hs)
  {
    forall h | h in hs ensures Holds(env, t, Delete(FindNothing(true)), h) {
    }
  }

  lemma NamedAfterMaking(env: Env, h: Hw, r: AllocResult, k: GiKey, ci: nat, before: Hw)
    requires EnvOk(env) && IsMig(env, r) && k.gpu == MinorOf(env, r) && h == WithPartition(env, before, r, k, ci)
    ensures k in h.gis && Complete(h, k) && NameOf(env.profiles, h, k) == r.device
    ensures ParseCanonicalName(r.device) == Some(SpecOf(k, h.gis[k]))
  {
  }

  /** NoMigSharing is needed. An admin claim is completed on a partition and its Unprepare fails after destroying it. Another
      claim makes the partition anew and dies. Its unprepare spares the device as the admin claim's, and forgets it. */
  lemma AdminAccessLosesDevice(env: Env, s: Node, ca: Claim, ra: AllocResult, cb: Claim, rb: AllocResult, ka: GiKey, kb: GiKey, ci: nat) returns (t: Node)
    requires Fresh(env, s) && Wants(env, ca, ra) && Wants(env, cb, rb) && ca.uid != cb.uid && ra.device == rb.device && ra.adminAccess && !rb.adminAccess
    requires ka != kb && ka.gpu == kb.gpu == MinorOf(env, ra)
    ensures Reachable(env, Sound + Safe - {NoMigSharing}, s, t) && t.up && t.op == Idle
    ensures cb.uid !in ClaimsOf(t) && Owns(t, cb.uid, kb) && NameOf(env.profiles, t.hw, kb) == rb.device
  {
    var hs := Sound + Safe - {NoMigSharing};
    NotAsked(hs);
    FreshStart(env, hs, s);
    var t1 := FinishFirst(env, hs, s, Settle(s), ca, ra, ka, ci);
    OnTheNode(env, ra);
    var t2 := DestroyFirst(env, hs, s, t1, ca, ra, ka, ci);
    t := SharedIsSpared(env, hs, s, t2, ca, ra, cb, rb, ka, kb, ci);
  }

  lemma SharedIsSpared(env: Env, hs: set<Hypothesis>, s: Node, t: Node, ca: Claim, ra: AllocResult, cb: Claim, rb: AllocResult, ka: GiKey, kb: GiKey, ci: nat)
    returns (t': Node)
    requires Reachable(env, hs, s, t) && EnvOk(env) && env.mode == DynamicMig && t.up && t.op == Idle && t.file.Some? && t.hw.gis == map[]
    requires Wants(env, ca, ra) && Wants(env, cb, rb) && ca.uid != cb.uid && ra.device == rb.device && ra.adminAccess && !rb.adminAccess
    requires ka != kb && kb.gpu == MinorOf(env, rb) && NoMigSharing !in hs && Identity !in hs && OwnContainers !in hs
    requires ClaimsOf(t) == map[ca.uid := CompletedEntry(ca, [DeviceOf(env, ca, ra, ka, ci)])]
    ensures Reachable(env, hs, s, t') && t'.up && t'.op == Idle
    ensures cb.uid !in ClaimsOf(t') && Owns(t', cb.uid, kb) && NameOf(env.profiles, t'.hw, kb) == rb.device
  {
    CanMakeBeside(env, hs, t, ca, ra, cb, rb, ka, kb, ci);
    var died := ReachDied(env, hs, s, t, cb, rb, kb, ci);
    SparedName(ClaimsOf(died), ca.uid, ra);
    NamedAfterMaking(env, died.hw, rb, kb, ci, t.hw);
    OnTheNode(env, rb);
    t' := LoseByName(env, hs, s, died, cb.uid, rb, kb, SkipJob);
  }

  lemma CanMakeBeside(env: Env, hs: set<Hypothesis>, t: Node, ca: Claim, ra: AllocResult, cb: Claim, rb: AllocResult, ka: GiKey, kb: GiKey, ci: nat)
    requires t.up && t.op == Idle && t.file.Some? && t.hw.gis == map[] && Wants(env, ca, ra) && Wants(env, cb, rb) && ca.uid != cb.uid && ra.adminAccess
    requires ka != kb && kb.gpu == MinorOf(env, rb) && NoMigSharing !in hs && Identity !in hs && OwnContainers !in hs
    requires ClaimsOf(t) == map[ca.uid := CompletedEntry(ca, [DeviceOf(env, ca, ra, ka, ci)])]
    ensures CanMake(env, hs, t, cb, rb, kb)
  {
    assert NonAdminSet([ra]) == {};
    DeviceFacts(env, t.hw, ca, ra, ka, ci);
  }

  lemma SparedName(claims: map<Uid, Entry>, u: Uid, r: AllocResult)
    requires u in claims && claims[u].state == PrepareCompleted && claims[u].results == [r]
    ensures r.device in CompletedNames(claims)
  {
    assert r in claims[u].results;
  }

  // -------------------------------------------------- with every hypothesis

  /** No hypothesis keeps orphans from arising: a creation that dies between GPU and compute instance leaves one, and the
      claim's sweep, which finds nothing, forgets the claim. */
  lemma OrphanArises(env: Env, s: Node, c: Claim, r: AllocResult, k: GiKey) returns (t: Node)
    requires Fresh(env, s) && Wants(env, c, r) && !r.adminAccess && k.gpu == MinorOf(env, r)
    ensures Reachable(env, Sound + Safe, s, t) && t.up && t.op == Idle && ClaimsOf(t) == map[] && Orphan(t, k)
    ensures Overlap(t.hw.gis[k], PartitionOf(env, r))
  {
    var hs := Sound + Safe;
    NotAsked(hs);
    FreshStart(env, hs, s);
    CanMakeFirst(env, hs, Settle(s), c, r, k);
    var died := ReachHalfMade(env, hs, s, Settle(s), c, r, k);
    WantsParses(env, c, r);
    OneClaim(ClaimsOf(died), c);
    t := ForgetHalfMade(env, hs, s, died, c.uid, r, k);
    OrphanOfAll(env, t, r, k);
  }

  lemma ReachHalfMade(env: Env, hs: set<Hypothesis>, s: Node, t: Node, c: Claim, r: AllocResult, k: GiKey) returns (t': Node)
    requires Reachable(env, hs, s, t) && EnvOk(env) && env.mode == DynamicMig && CanMake(env, hs, t, c, r, k)
    ensures Reachable(env, hs, s, t') && t'.up && t'.op == Idle && t'.file.Some?
    ensures ClaimsOf(t') == ClaimsOf(t)[c.uid := StartedEntry(c)] && t'.hw.gis == t.hw.gis[k := PartitionOf(env, r)]
  {
    WantedIsAdvertised(env, t, c, r);
    ReachCreating(env, hs, s, t, c, [r]);
    CreatingFacts(env, hs, t, c, r, k);
    var creating, hw := Creating(t, c, [r], []), Hw(t.hw.gis[k := PartitionOf(env, r)], t.hw.on + {k.gpu});
    assert MayCreate(env, creating, k, 0, hw, false);
    ReachCreate(env, hs, s, creating, k, 0, hw, false);
    t' := AfterCreate(env, creating, k, 0, hw, false);
    assert ClaimsOf(t') == ClaimsOf(creating);
  }

  lemma ForgetHalfMade(env: Env, hs: set<Hypothesis>, s: Node, t: Node, u: Uid, r: AllocResult, k: GiKey) returns (t': Node)
    requires Reachable(env, hs, s, t) && env.mode == DynamicMig && t.up && t.op == Idle && t.file.Some?
    requires Started(t, u) && ClaimsOf(t)[u].results == [r] && r.device !in CompletedNames(ClaimsOf(t))
    requires ParseCanonicalName(r.device).Some? && ParseCanonicalName(r.device).value.minor in env.gpus && t.hw.gis.Keys == {k} && t.hw.gis[k].ci.None?
    ensures Reachable(env, hs, s, t') && t'.up && t'.op == Idle && ClaimsOf(t') == ClaimsOf(t) - {u} && t'.hw == t.hw
  {
    NothingComplete(env, t, u, r.device, k);
    t' := ForgetUnfound(env, hs, s, t, u, r);
  }

  lemma OneClaim(claims: map<Uid, Entry>, c: Claim)
    requires claims == map[c.uid := StartedEntry(c)]
    ensures CompletedNames(claims) == {} && claims - {c.uid} == map[] && c.uid in claims && claims[c.uid] == StartedEntry(c)
  {
  }

  lemma ForgetUnfound(env: Env, hs: set<Hypothesis>, s: Node, t: Node, u: Uid, r: AllocResult) returns (t': Node)
    requires Reachable(env, hs, s, t) && env.mode == DynamicMig && t.up && t.op == Idle && t.file.Some?
    requires Started(t, u) && ClaimsOf(t)[u].results == [r] && JobEnabled(env, AtJob(t, u, r.device), FindNothing(false))
    ensures Reachable(env, hs, s, t') && t'.up && t'.op == Idle && SameHardware(t, t') && ClaimsOf(t') == ClaimsOf(t) - {u}
  {
    ReachAtJob(env, hs, s, t, u, r);
    PlainHolds(env, AtJob(t, u, r.device), Delete(FindNothing(false)), hs);
    t' := ReachPassedOver(env, hs, s, t, u, r.device, FindNothing(false));
  }

  lemma WantsParses(env: Env, c: Claim, r: AllocResult)
    requires EnvOk(env) && Wants(env, c, r)
    ensures ParseCanonicalName(r.device).Some? && ParseCanonicalName(r.device).value.minor in env.gpus && env.allocatable[r.device].size > 0
  {
  }

  lemma OrphanOfAll(env: Env, t: Node, r: AllocResult, k: GiKey)
    requires IsMig(env, r) && env.allocatable[r.device].size > 0 && t.op == Idle && ClaimsOf(t) == map[] && t.hw.gis == map[k := PartitionOf(env, r)]
    ensures Orphan(t, k) && Overlap(t.hw.gis[k], PartitionOf(env, r))
  {
  }

  lemma NothingComplete(env: Env, t: Node, u: Uid, name: string, k: GiKey)
    requires t.up && ParseCanonicalName(name).Some? && ParseCanonicalName(name).value.minor in env.gpus
    requires t.hw.gis.Keys == {k} && t.hw.gis[k].ci.None? && name !in CompletedNames(ClaimsOf(t))
    ensures JobEnabled(env, AtJob(t, u, name), FindNothing(false))
  {
    var at := AtJob(t, u, name);
    assert Todo(at.op) == [ByName(name)] && Spare(at.op) == CompletedNames(ClaimsOf(t)) && at.hw == t.hw;
    assert forall l :: !IsMatch(t.hw, l, ParseCanonicalName(name).value);
  }

  /** A Prepare after a failed Unprepare: the device is gone, the entry is still completed, and so Prepare answers with a
      device that no longer exists. */
  lemma StaleAnswerAfterFailedUnprepare(env: Env, s: Node, c: Claim, r: AllocResult, k: GiKey, ci: nat) returns (t: Node)
    requires Fresh(env, s) && Wants(env, c, r) && !r.adminAccess && k.gpu == MinorOf(env, r)
    ensures Reachable(env, Sound + Safe, s, t) && PrepareEnabled(env, t, ReturnPrepared)
    ensures Answer(t, Prepare(ReturnPrepared), c.uid) == Some([DeviceOf(env, c, r, k, ci)]) && k !in t.hw.gis
    ensures DeviceOf(env, c, r, k, ci).live == Some(LiveTuple(k.gpu, k.id, ci))
  {
    var hs := Sound + Safe;
    NotAsked(hs);
    FreshStart(env, hs, s);
    var t1 := FinishFirst(env, hs, s, Settle(s), c, r, k, ci);
    OnTheNode(env, r);
    var t2 := DestroyFirst(env, hs, s, t1, c, r, k, ci);
    t := ReachAnswer(env, hs, s, t2, c, r);
    DeviceFacts(env, t2.hw, c, r, k, ci);
  }

  lemma ReachAnswer(env: Env, hs: set<Hypothesis>, s: Node, t: Node, c: Claim, r: AllocResult) returns (t': Node)
    requires Reachable(env, hs, s, t) && EnvOk(env) && t.up && t.op == Idle && Completed(t, c.uid) && ClaimsOf(t)[c.uid].results == c.results
    requires Wants(env, c, r) && (NoMigSharing in hs ==> !r.adminAccess) && Identity !in hs && OwnContainers !in hs
    ensures Reachable(env, hs, s, t') && PrepareEnabled(env, t', ReturnPrepared) && t'.hw == t.hw
    ensures Answer(t', Prepare(ReturnPrepared), c.uid) == Some(ClaimsOf(t)[c.uid].devices)
  {
    GoodAgain(env, hs, t, c, r);
    CallHolds(env, hs, t, c);
    ReachProcess(env, hs, s, t, CallPrepare(c));
    t' := ProcessApply(env, t, CallPrepare(c));
    AnswersCompleted(env, t, c);
  }

  lemma GoodAgain(env: Env, hs: set<Hypothesis>, t: Node, c: Claim, r: AllocResult)
    requires EnvOk(env) && Completed(t, c.uid) && ClaimsOf(t)[c.uid].results == c.results
    requires Wants(env, c, r) && (NoMigSharing in hs ==> !r.adminAccess) && Identity !in hs && OwnContainers !in hs
    ensures GoodClaim(env, hs, t, c)
  {
    assert r in c.results && AdvertisedResults(env, c.results);
  }

  lemma AnswersCompleted(env: Env, t: Node, c: Claim)
    requires t.up && t.op == Idle && Completed(t, c.uid)
    ensures var t' := ProcessApply(env, t, CallPrepare(c));
            && PrepareEnabled(env, t', ReturnPrepared) && t'.hw == t.hw
            && Answer(t', Prepare(ReturnPrepared), c.uid) == Some(ClaimsOf(t)[c.uid].devices)
  {
    assert ClaimsOf(ProcessApply(env, t, CallPrepare(c))) == ClaimsOf(t);
  }

  /** With both HAMi-Core and dynamic MIG off, the unprepare of a partially prepared claim is logged as a no-op, yet it
      deletes the statically partitioned MIG device that the claim was allocated and nobody made. */
  lemma NoopRollbackDeletes(env: Env, s: Node, c: Claim, r: AllocResult, k: GiKey) returns (t: Node)
    requires Initial(s) && !Kept(s) && env.mode == NeitherMode && c.results == [r] && r.driver == DriverName
    requires ParseCanonicalName(r.device).Some? && IsMatch(s.hw, k, ParseCanonicalName(r.device).value) && k !in s.owner && k.gpu in env.gpus
    ensures Reachable(env, {}, s, t) && t.op == Idle && c.uid !in ClaimsOf(t) && k !in t.hw.gis
  {
    ReachStartup(env, {}, s);
    var t0 := Settle(s);
    ReachStarted(env, {}, s, t0, c);
    var started := AfterStarted(t0, c);
    ReachStop(env, {}, s, started);
    t := ForgetStatic(env, s, started.(op := Idle), c, r, k);
  }

  lemma ForgetStatic(env: Env, s: Node, t: Node, c: Claim, r: AllocResult, k: GiKey) returns (t': Node)
    requires Reachable(env, {}, s, t) && env.mode == NeitherMode && t.up && t.op == Idle && t.file.Some? && HwOk(t.hw)
    requires ClaimsOf(t) == map[c.uid := StartedEntry(c)] && c.results == [r]
    requires ParseCanonicalName(r.device).Some? && IsMatch(t.hw, k, ParseCanonicalName(r.device).value) && k.gpu in env.gpus
    ensures Reachable(env, {}, s, t') && t'.op == Idle && c.uid !in ClaimsOf(t') && k !in t'.hw.gis
  {
    ReachAdmitted(env, {}, s, t, c.uid);
    StaticIsHit(env, t, c, r, k);
    t' := ForgetSwept(env, s, Admitted(env, t, c.uid), c.uid, k);
  }

  lemma ForgetSwept(env: Env, s: Node, t: Node, u: Uid, k: GiKey) returns (t': Node)
    requires Reachable(env, {}, s, t) && SweepingNames(t) && HwOk(t.hw) && t.file.Some? && t.op.Unpreparing? && t.op.uid == u
    requires HitByAny(t.hw, Todo(t.op), Spare(t.op), k) && NoneBlocked(env, Todo(t.op), Spare(t.op))
    ensures Reachable(env, {}, s, t') && t'.op == Idle && u !in ClaimsOf(t') && k !in t'.hw.gis
  {
    var swept := ReachSwept(env, {}, s, t);
    WithTodoFacts(t.op, []);
    ReachForgotten(env, {}, s, swept, u);
    t' := Forgotten(swept, u);
  }

  lemma OneNameHits(env: Env, h: Hw, name: string, spare: set<string>, k: GiKey)
    requires ParseCanonicalName(name).Some? && IsMatch(h, k, ParseCanonicalName(name).value) && k.gpu in env.gpus && name !in spare
    ensures HitByAny(h, [ByName(name)], spare, k) && NoneBlocked(env, [ByName(name)], spare)
  {
    assert ByName(name) in [ByName(name)] && Hits(h, ByName(name), spare, k);
  }

  lemma StaticIsHit(env: Env, t: Node, c: Claim, r: AllocResult, k: GiKey)
    requires env.mode == NeitherMode && t.up && ClaimsOf(t) == map[c.uid := StartedEntry(c)] && c.results == [r]
    requires ParseCanonicalName(r.device).Some? && IsMatch(t.hw, k, ParseCanonicalName(r.device).value) && k.gpu in env.gpus
    ensures var at := Admitted(env, t, c.uid);
            && HitByAny(at.hw, Todo(at.op), Spare(at.op), k) && NoneBlocked(env, Todo(at.op), Spare(at.op))
            && SweepingNames(at) && at.hw == t.hw && at.file == t.file && at.op.Unpreparing? && at.op.uid == c.uid
  {
    OneClaim(ClaimsOf(t), c);
    AdmittedSweepsNames(env, t, c.uid);
    OneName(r);
    OneNameHits(env, t.hw, r.device, CompletedNames(ClaimsOf(t)), k);
  }
}
