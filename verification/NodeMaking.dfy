/** Dynamic MIG: what a preparation in progress has made so far. */
module NodeMaking {
  import opened Base
  import opened Claims
  import opened Hypotheses
  import opened MigNames
  import opened Node
  import opened NodeBasics
  import opened NodeLife
  import opened Nvlib

  /** The devices made so far by a preparation in progress. */
  predicate DoneOk(env: Env, s: Node) {
    s.op.Preparing? && s.op.stage.Create? ==>
      forall d :: d in s.op.stage.done ==>
        && RecordOk(env, s.hw, s.owner, s.op.claim.uid, s.op.claim.results, d)
        && (d.live.Some? ==> Alive(s.hw, d.live.value))
  }

  predicate OpAdvertised(env: Env, s: Node) {
    s.op.Preparing? ==> AdvertisedClaim(env, s, s.op.claim)
  }

  predicate OpOk(env: Env, s: Node) {
    DoneOk(env, s) && OpAdvertised(env, s)
  }

  ghost predicate MakingInv(env: Env, s: Node) {
    HwOk(s.hw) && (s.up ==> AllAdvertised(env, ClaimsOf(s)) && OpOk(env, s))
  }

  /** Deleting the GPU instance k leaves every record that is not about k as it was. */
  lemma DeletionKeepsRecord(env: Env, hw: Hw, owner: map<GiKey, Uid>, t: LiveTuple, hw': Hw, done: bool, u: Uid, results: seq<AllocResult>, d: PreparedDevice)
    requires Deletes(hw, t, hw', done) && RecordOk(env, hw, owner, u, results, d)
    ensures RecordOk(env, hw', OwnersIn(owner, hw'), u, results, d)
    ensures d.live.Some? && d.live.value.Key() != t.Key() && Alive(hw, d.live.value) ==> Alive(hw', d.live.value)
  {
  }

  /** What a deletion leaves of the operation. */
  lemma JobEffect(env: Env, s: Node, j: JobEvent)
    requires JobEnabled(env, s, j)
    ensures var t := JobApply(env, s, j);
            && t.file == s.file && t.touched == s.touched && t.up == s.up
            && (t.op.Preparing? ==> s.op.Preparing? && t.op.claim == s.op.claim && t.op.stage.Rollback?)
            && (if j.DeleteMig? then t.hw == j.hw && t.owner == OwnersIn(s.owner, j.hw) else t.hw == s.hw && t.owner == s.owner)
  {
    match j
    case DeleteMig(_, _, _) =>
    case _ =>
  }

  lemma JobKeepsMaking(env: Env, s: Node, j: JobEvent)
    requires Basic(env, s) && MakingInv(env, s) && JobEnabled(env, s, j)
    ensures MakingInv(env, JobApply(env, s, j))
  {
    JobEffect(env, s, j);
    var t := JobApply(env, s, j);
    assert ClaimsOf(t) == ClaimsOf(s);
    if j.DeleteMig? {
      DeletesKeepsHwOk(s.hw, j.tuple, j.hw, j.done);
    }
  }

  /** A step that leaves hardware and entries alone. */
  lemma MakingFrame(env: Env, s: Node, t: Node)
    requires MakingInv(env, s) && s.up && ClaimsOf(t) == ClaimsOf(s) && SameHardware(s, t) && OpOk(env, t)
    ensures MakingInv(env, t)
  {
  }

  lemma OutsideKeepsMaking(env: Env, s: Node, o: OutsideEvent)
    requires Basic(env, s) && MakingInv(env, s) && OutsideEnabled(s, o)
    ensures MakingInv(env, OutsideApply(s, o))
  {
    var t := OutsideApply(s, o);
    OutsideSameFile(s, o);
    OutsideHardware(s, o);
    assert ClaimsOf(t) == ClaimsOf(s);
    if s.up && !o.Reboot? {
      MakingFrame(env, s, t);
    }
  }

  lemma OpAfterProcess(env: Env, s: Node, p: ProcessEvent)
    requires s.up && BootInv(s) && OpOk(env, s) && ProcessEnabled(env, s, p) && Holds(env, s, Process(p), Advertised)
    ensures OpOk(env, ProcessApply(env, s, p))
  {
    WritesProcess(env, s, p);
    ProcessHardware(env, s, p);
  }

  /** A startup of a process while the node is up changes no entry. */
  lemma UpKeepsEntries(env: Env, s: Node, p: ProcessEvent)
    requires s.up && BootInv(s) && ProcessEnabled(env, s, p)
    ensures ClaimsOf(ProcessApply(env, s, p)) == ClaimsOf(s)
  {
    WritesProcess(env, s, p);
  }

  lemma AdoptedAdvertised(env: Env, s: Node)
    requires Holds(env, s, Process(Startup), Adopted(MigResults)) && !s.up && Kept(s)
    ensures AllAdvertised(env, ClaimsOf(s))
  {
    assert Adopts(s, Process(Startup)) && BooksOk(env, s, MigResults);
  }

  /** The entries that a first startup leaves. */
  lemma FirstStartupEntries(env: Env, s: Node)
    requires Kept(s) ==> AllAdvertised(env, ClaimsOf(s))
    ensures AllAdvertised(env, ClaimsOf(Settle(s)))
  {
    var claims := ClaimsOf(Settle(s));
    if Kept(s) {
      assert claims == ClaimsOf(s);
    } else {
      assert claims == map[];
    }
  }

  lemma FirstStartupMaking(env: Env, s: Node, p: ProcessEvent)
    requires BootInv(s) && !s.up && HwOk(s.hw) && ProcessEnabled(env, s, p) && Holds(env, s, Process(p), Adopted(MigResults))
    ensures MakingInv(env, ProcessApply(env, s, p))
  {
    assert p == Startup;
    if Kept(s) {
      AdoptedAdvertised(env, s);
    }
    FirstStartupEntries(env, s);
  }

  lemma ProcessKeepsMaking(env: Env, s: Node, p: ProcessEvent)
    requires Basic(env, s) && MakingInv(env, s) && ProcessEnabled(env, s, p)
    requires Holds(env, s, Process(p), Advertised) && Holds(env, s, Process(p), Adopted(MigResults))
    ensures MakingInv(env, ProcessApply(env, s, p))
  {
    if s.up {
      UpKeepsEntries(env, s, p);
      ProcessHardware(env, s, p);
      OpAfterProcess(env, s, p);
      MakingFrame(env, s, ProcessApply(env, s, p));
    } else {
      FirstStartupMaking(env, s, p);
    }
  }

  lemma CleanupKeepsMaking(env: Env, s: Node, c: CleanupEvent)
    requires Basic(env, s) && MakingInv(env, s) && CleanupEnabled(s, c)
    ensures MakingInv(env, CleanupApply(s, c))
  {
    CleanupSameFile(s, c);
    CleanupHardware(s, c);
    assert s.up && ClaimsOf(CleanupApply(s, c)) == ClaimsOf(s);
    MakingFrame(env, s, CleanupApply(s, c));
  }

  lemma UnprepareKeepsMaking(env: Env, s: Node, u: UnprepareEvent)
    requires Basic(env, s) && MakingInv(env, s) && UnprepareEnabled(s, u)
    ensures MakingInv(env, UnprepareApply(env, s, u))
  {
    WritesUnprepare(env, s, u);
    UnprepareHardware(env, s, u);
    assert !UnprepareApply(env, s, u).op.Preparing?;
  }

  /** A GPU instance under an id that no record names leaves all records as they were. */
  lemma CreationKeepsRecord(env: Env, hw: Hw, owner: map<GiKey, Uid>, spec: MigSpecTuple, size: nat, k: GiKey, ci: nat, hw': Hw, done: bool,
                            maker: Uid, u: Uid, results: seq<AllocResult>, d: PreparedDevice)
    requires Creates(hw, spec, size, k, ci, hw', done) && RecordOk(env, hw, owner, u, results, d)
    requires d.live.Some? ==> d.live.value.Key() != k || k in hw.gis
    ensures RecordOk(env, hw', if k in hw'.gis && k !in hw.gis then owner[k := maker] else owner, u, results, d)
    ensures d.live.Some? && Alive(hw, d.live.value) ==> Alive(hw', d.live.value)
  {
  }

  lemma CreatedIsOk(env: Env, s: Node, k: GiKey, ci: nat, hw': Hw)
    requires EnvOk(env) && MayCreate(env, s, k, ci, hw', true)
    ensures var d := MadeDevice(env, s.op, k, ci);
            && d.live == Some(LiveTuple(k.gpu, k.id, ci)) && d.live.value.Key() == k && d.device == s.op.stage.left[0].device
            && Alive(hw', d.live.value) && NameOf(env.profiles, hw', k) == d.device && k !in s.hw.gis
  {
  }

  /** The devices already made live on beside the new one. */
  lemma CreationKeepsDone(env: Env, s: Node, k: GiKey, ci: nat, hw': Hw, made: bool)
    requires MakingInv(env, s) && s.up && MayCreate(env, s, k, ci, hw', made)
    ensures HwOk(hw')
    ensures forall d :: d in s.op.stage.done ==>
              RecordOk(env, hw', OwnerAfter(s, k, hw'), s.op.claim.uid, s.op.claim.results, d) && (d.live.Some? ==> Alive(hw', d.live.value))
  {
    var c, st := s.op.claim, s.op.stage;
    var a := env.allocatable[st.left[0].device];
    CreatesKeepsHwOk(s.hw, a.spec, a.size, k, ci, hw', made);
    forall d | d in st.done
      ensures RecordOk(env, hw', OwnerAfter(s, k, hw'), c.uid, c.results, d)
      ensures d.live.Some? ==> Alive(hw', d.live.value)
    {
      CreationKeepsRecord(env, s.hw, s.owner, a.spec, a.size, k, ci, hw', made, c.uid, c.uid, c.results, d);
    }
  }

  /** Each of these devices is u's, and alive. */
  ghost predicate DevicesOk(env: Env, hw: Hw, owner: map<GiKey, Uid>, u: Uid, results: seq<AllocResult>, devices: seq<PreparedDevice>) {
    forall d :: d in devices ==> RecordOk(env, hw, owner, u, results, d) && (d.live.Some? ==> Alive(hw, d.live.value))
  }

  lemma DevicesMore(env: Env, hw: Hw, owner: map<GiKey, Uid>, u: Uid, results: seq<AllocResult>, devices: seq<PreparedDevice>, d: PreparedDevice)
    requires DevicesOk(env, hw, owner, u, results, devices) && RecordOk(env, hw, owner, u, results, d) && (d.live.Some? ==> Alive(hw, d.live.value))
    ensures DevicesOk(env, hw, owner, u, results, devices + [d])
  {
  }

  /** The new device joins those already made. */
  lemma DoneOkAfter(env: Env, t: Node, c: Claim, left: seq<AllocResult>, done: seq<PreparedDevice>)
    requires t.op == Preparing(c, Create(left, done)) && DevicesOk(env, t.hw, t.owner, c.uid, c.results, done)
    ensures DoneOk(env, t)
  {
  }

  lemma MadeIsOk(env: Env, s: Node, k: GiKey, ci: nat, hw': Hw)
    requires EnvOk(env) && MayCreate(env, s, k, ci, hw', true) && s.op.stage.left[0] in s.op.claim.results
    ensures var d := MadeDevice(env, s.op, k, ci);
            RecordOk(env, hw', OwnerAfter(s, k, hw'), s.op.claim.uid, s.op.claim.results, d) && d.live.Some? && Alive(hw', d.live.value)
  {
    CreatedIsOk(env, s, k, ci, hw');
  }

  lemma CreateKeepsMaking(env: Env, s: Node, k: GiKey, ci: nat, hw': Hw, made: bool)
    requires EnvOk(env) && MakingInv(env, s) && s.up && MayCreate(env, s, k, ci, hw', made) && s.op.stage.left[0] in s.op.claim.results
    ensures MakingInv(env, AfterCreate(env, s, k, ci, hw', made))
  {
    CreationKeepsDone(env, s, k, ci, hw', made);
    assert ClaimsOf(AfterCreate(env, s, k, ci, hw', made)) == ClaimsOf(s);
    if made {
      MadeIsOk(env, s, k, ci, hw');
      var c, st, owner, d := s.op.claim, s.op.stage, OwnerAfter(s, k, hw'), MadeDevice(env, s.op, k, ci);
      DevicesMore(env, hw', owner, c.uid, c.results, st.done, d);
      DoneOkAfter(env, AfterCreate(env, s, k, ci, hw', made), c, st.left[1..], st.done + [d]);
    }
  }

  lemma WriteKeepsMaking(env: Env, s: Node, q: PrepareEvent)
    requires MakingInv(env, s) && PrepareEnabled(env, s, q) && (q.WriteStarted? || q.WriteCompleted?)
    ensures MakingInv(env, PrepareApply(env, s, q))
  {
    WritesPrepare(env, s, q);
    PrepareHardware(env, s, q);
  }

  lemma QuietKeepsMaking(env: Env, s: Node, q: PrepareEvent)
    requires MakingInv(env, s) && PrepareEnabled(env, s, q) && !q.CreateMig? && !q.WriteStarted? && !q.WriteCompleted?
    ensures MakingInv(env, PrepareApply(env, s, q))
  {
    WritesPrepare(env, s, q);
    PrepareHardware(env, s, q);
    MakingFrame(env, s, PrepareApply(env, s, q));
  }

  lemma CreateIsForAResult(env: Env, s: Node, k: GiKey, ci: nat, hw': Hw, made: bool)
    requires Basic(env, s) && PrepareEnabled(env, s, CreateMig(k, ci, hw', made))
    ensures s.up && MayCreate(env, s, k, ci, hw', made) && s.op.stage.left[0] in Own(s.op.claim.results)
    ensures Started(s, s.op.claim.uid) && ClaimsOf(s)[s.op.claim.uid] == StartedEntry(s.op.claim)
    ensures PrepareApply(env, s, CreateMig(k, ci, hw', made)) == AfterCreate(env, s, k, ci, hw', made)
  {
  }

  lemma PrepareKeepsMaking(env: Env, s: Node, q: PrepareEvent)
    requires EnvOk(env) && Basic(env, s) && MakingInv(env, s) && PrepareEnabled(env, s, q)
    ensures MakingInv(env, PrepareApply(env, s, q))
  {
    match q
    case CreateMig(k, ci, hw, made) =>
      CreateIsForAResult(env, s, k, ci, hw, made);
      CreateKeepsMaking(env, s, k, ci, hw, made);
    case WriteStarted => WriteKeepsMaking(env, s, q);
    case WriteCompleted => WriteKeepsMaking(env, s, q);
    case _ => QuietKeepsMaking(env, s, q);
  }

  lemma MakingKept(env: Env, s: Node, e: Event)
    requires EnvOk(env) && Basic(env, s) && MakingInv(env, s) && Enabled(env, s, e)
    requires Holds(env, s, e, Advertised) && Holds(env, s, e, Adopted(MigResults))
    ensures MakingInv(env, Apply(env, s, e))
  {
    match e
    case Outside(o) => OutsideKeepsMaking(env, s, o);
    case Process(p) => ProcessKeepsMaking(env, s, p);
    case Cleanup(c) => CleanupKeepsMaking(env, s, c);
    case Prepare(q) => PrepareKeepsMaking(env, s, q);
    case Unprepare(u) => UnprepareKeepsMaking(env, s, u);
    case Delete(j) => JobKeepsMaking(env, s, j);
  }

  lemma {:induction false} MakingRun(env: Env, s: Node, es: seq<Event>, hs: set<Hypothesis>)
    requires EnvOk(env) && Basic(env, s) && MakingInv(env, s) && Run(env, s, es).Some?
    requires Advertised in hs && Adopted(MigResults) in hs && Assuming(env, s, es, hs)
    ensures MakingInv(env, Run(env, s, es).value)
    decreases es
  {
    if es != [] {
      BasicKept(env, s, es[0]);
      MakingKept(env, s, es[0]);
      MakingRun(env, Apply(env, s, es[0]), es[1..], hs);
    }
  }
}
