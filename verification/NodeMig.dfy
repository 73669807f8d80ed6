/** Dynamic MIG, safety: a live MIG device that a completed claim has recorded is destroyed only by that claim's own
    Unprepare, whatever else is rolled back, torn down at startup, cleaned up or retried. */
module NodeMig {
  import opened Base
  import opened Claims
  import opened Hypotheses
  import opened MigNames
  import opened Node
  import opened NodeBasics
  import opened NodeLife
  import opened NodeMaking
  import opened Nvlib

  ghost predicate RecordsInv(env: Env, s: Node) {
    s.up ==> RecordsOk(env, ClaimsOf(s), s.hw, s.owner) && RecordsAlive(ClaimsOf(s), s.hw, s.touched)
  }

  ghost predicate MigInv(env: Env, s: Node) {
    MakingInv(env, s) && RecordsInv(env, s)
  }

  // ------------------------------------------------------------- deletions

  /** A device found by an advertised name is enumerated under that name. */
  lemma MatchHasName(env: Env, hw: Hw, k: GiKey, name: string)
    requires IsAdvertised(env, name) && ParseCanonicalName(name).Some? && IsMatch(hw, k, ParseCanonicalName(name).value)
    ensures NameOf(env.profiles, hw, k) == name
  {
  }

  lemma RecordedNameIsSpared(env: Env, s: Node, u: Uid, d: PreparedDevice)
    requires Basic(env, s) && MigInv(env, s) && s.up && Completed(s, u) && d in ClaimsOf(s)[u].devices
    requires d.live.Some? && d.live.value.Key() in s.hw.gis
    ensures NameOf(env.profiles, s.hw, d.live.value.Key()) in CompletedNames(ClaimsOf(s))
  {
    assert RecordOk(env, s.hw, s.owner, u, ClaimsOf(s)[u].results, d);
  }

  /** A name to be deleted is one the driver could announce, and no completed claim's. */
  lemma NamedJob(env: Env, s: Node)
    requires Basic(env, s) && MigInv(env, s) && s.up && Todo(s.op) != [] && Todo(s.op)[0].ByName?
    ensures IsAdvertised(env, Todo(s.op)[0].device) && Spare(s.op) == CompletedNames(ClaimsOf(s))
  {
    assert Todo(s.op)[0] in Todo(s.op);
    if s.op.Preparing? {
      AdvertisedName(env, ClaimsOf(s)[s.op.claim.uid].results, Todo(s.op)[0].device);
    } else {
      AdvertisedName(env, ClaimsOf(s)[s.op.uid].results, Todo(s.op)[0].device);
    }
  }

  lemma AdvertisedName(env: Env, results: seq<AllocResult>, name: string)
    requires AdvertisedResults(env, results) && name in DeviceNames(results)
    ensures IsAdvertised(env, name)
  {
  }

  lemma NamedTargetAdvertised(env: Env, s: Node, t: LiveTuple)
    requires Basic(env, s) && MigInv(env, s) && s.up && MayDelete(env, s, t) && !s.op.TearingDown? && Todo(s.op)[0].ByName?
    ensures NameOf(env.profiles, s.hw, t.Key()) !in CompletedNames(ClaimsOf(s)) && t.Key() in s.hw.gis
  {
    NamedJob(env, s);
    MatchHasName(env, s.hw, t.Key(), Todo(s.op)[0].device);
  }

  /** What an operation may delete is never a completed claim's recorded device, except in that claim's own Unprepare. */
  lemma TargetIsFair(env: Env, s: Node, t: LiveTuple, u: Uid, d: PreparedDevice)
    requires Basic(env, s) && MigInv(env, s) && s.up && MayDelete(env, s, t)
    requires Completed(s, u) && d in ClaimsOf(s)[u].devices && d.live.Some? && d.live.value.Key() == t.Key() && t.Key() in s.hw.gis
    ensures s.op.Unpreparing? && s.op.uid == u
  {
    RecordedNameIsSpared(env, s, u, d);
    if !s.op.TearingDown? {
      if Todo(s.op)[0].ByName? {
        NamedTargetAdvertised(env, s, t);
      } else {
        TupleTargetIsOwn(env, s, t, u, d);
      }
    }
  }

  lemma TupleTargetIsOwn(env: Env, s: Node, t: LiveTuple, u: Uid, d: PreparedDevice)
    requires Basic(env, s) && MigInv(env, s) && s.up && !s.op.TearingDown? && Todo(s.op) != [] && Todo(s.op)[0] == ByTuple(t)
    requires Completed(s, u) && d in ClaimsOf(s)[u].devices && d.live.Some? && d.live.value.Key() == t.Key() && t.Key() in s.hw.gis
    ensures s.op.Unpreparing? && s.op.uid == u
  {
    assert Todo(s.op)[0] in Todo(s.op);
    assert s.op.Unpreparing? && Completed(s, s.op.uid);
    var d' :| d' in ClaimsOf(s)[s.op.uid].devices && d'.live == Some(t);
    assert RecordOk(env, s.hw, s.owner, s.op.uid, ClaimsOf(s)[s.op.uid].results, d');
    assert RecordOk(env, s.hw, s.owner, u, ClaimsOf(s)[u].results, d);
  }

  // ------------------------------------------------------- keeping the invariant

  lemma DeletionKeepsBooks(env: Env, s: Node, t: LiveTuple, hw': Hw, done: bool)
    requires Basic(env, s) && MigInv(env, s) && s.up && MayDelete(env, s, t) && Deletes(s.hw, t, hw', done)
    ensures RecordsOk(env, ClaimsOf(s), hw', OwnersIn(s.owner, hw')) && RecordsAlive(ClaimsOf(s), hw', s.touched)
  {
    var claims := ClaimsOf(s);
    forall u, d | u in claims && d in claims[u].devices
      ensures RecordOk(env, hw', OwnersIn(s.owner, hw'), u, claims[u].results, d)
      ensures claims[u].state == PrepareCompleted && u !in s.touched && d.live.Some? ==> Alive(hw', d.live.value)
    {
      DeletionKeepsRecord(env, s.hw, s.owner, t, hw', done, u, claims[u].results, d);
      if Completed(s, u) && u !in s.touched && d.live.Some? && d.live.value.Key() == t.Key() {
        TargetIsFair(env, s, t, u, d);
        UnpreparingMeansTouched(env, s);
        assert false;
      }
    }
  }

  lemma UnpreparingMeansTouched(env: Env, s: Node)
    requires Basic(env, s) && s.op.Unpreparing? && s.op.ustage != Arrive && Completed(s, s.op.uid)
    ensures s.op.uid in s.touched
  {
  }

  lemma JobKeepsRecords(env: Env, s: Node, j: JobEvent)
    requires Basic(env, s) && MigInv(env, s) && JobEnabled(env, s, j)
    ensures RecordsInv(env, JobApply(env, s, j))
  {
    JobEffect(env, s, j);
    assert ClaimsOf(JobApply(env, s, j)) == ClaimsOf(s);
    if j.DeleteMig? {
      DeletionKeepsBooks(env, s, j.tuple, j.hw, j.done);
    }
  }

  /** A step that leaves hardware and entries alone and touches no fewer claims. */
  lemma RecordsFrame(env: Env, s: Node, t: Node)
    requires RecordsInv(env, s) && s.up && ClaimsOf(t) == ClaimsOf(s) && SameHardware(s, t) && s.touched <= t.touched
    ensures RecordsInv(env, t)
  {
  }

  lemma OutsideKeepsRecords(env: Env, s: Node, o: OutsideEvent)
    requires RecordsInv(env, s) && OutsideEnabled(s, o)
    ensures RecordsInv(env, OutsideApply(s, o))
  {
    var t := OutsideApply(s, o);
    OutsideSameFile(s, o);
    OutsideHardware(s, o);
    assert ClaimsOf(t) == ClaimsOf(s);
    if s.up && !o.Reboot? {
      RecordsFrame(env, s, t);
    }
  }

  lemma ProcessKeepsRecords(env: Env, s: Node, p: ProcessEvent)
    requires Basic(env, s) && RecordsInv(env, s) && ProcessEnabled(env, s, p) && Holds(env, s, Process(p), Adopted(MigRecords))
    ensures RecordsInv(env, ProcessApply(env, s, p))
  {
    StartupSettles(env, s, p);
    WritesProcess(env, s, p);
    ProcessHardware(env, s, p);
    SettledTouches(env, s, p);
    var t := ProcessApply(env, s, p);
    if s.up {
      RecordsFrame(env, s, t);
    }
  }

  lemma SettledTouches(env: Env, s: Node, p: ProcessEvent)
    requires ProcessEnabled(env, s, p)
    ensures !Wipes(s, Process(p)) && (s.file.Some? || !p.Startup?) ==> ProcessApply(env, s, p).touched == s.touched
  {
    match p
    case Startup =>
    case _ =>
  }

  lemma CleanupKeepsRecords(env: Env, s: Node, c: CleanupEvent)
    requires Basic(env, s) && RecordsInv(env, s) && CleanupEnabled(s, c)
    ensures RecordsInv(env, CleanupApply(s, c))
  {
    CleanupSameFile(s, c);
    CleanupHardware(s, c);
    assert s.up && ClaimsOf(CleanupApply(s, c)) == ClaimsOf(s);
    RecordsFrame(env, s, CleanupApply(s, c));
  }

  lemma UnprepareKeepsRecords(env: Env, s: Node, u: UnprepareEvent)
    requires RecordsInv(env, s) && UnprepareEnabled(s, u)
    ensures RecordsInv(env, UnprepareApply(env, s, u))
  {
    WritesUnprepare(env, s, u);
    UnprepareHardware(env, s, u);
    var t := UnprepareApply(env, s, u);
    match u
    case WriteForget => assert ClaimsOf(t) == ClaimsOf(s) - {s.op.uid};
    case _ => RecordsFrame(env, s, t);
  }

  lemma CreationKeepsBooks(env: Env, s: Node, k: GiKey, ci: nat, hw': Hw, made: bool)
    requires RecordsInv(env, s) && s.up && MayCreate(env, s, k, ci, hw', made) && IdFree(ClaimsOf(s), k)
    ensures RecordsInv(env, AfterCreate(env, s, k, ci, hw', made))
  {
    var claims, a, t := ClaimsOf(s), env.allocatable[s.op.stage.left[0].device], AfterCreate(env, s, k, ci, hw', made);
    assert ClaimsOf(t) == claims;
    forall u, d | u in claims && d in claims[u].devices
      ensures RecordOk(env, t.hw, t.owner, u, claims[u].results, d)
      ensures claims[u].state == PrepareCompleted && u !in s.touched && d.live.Some? ==> Alive(t.hw, d.live.value)
    {
      CreationKeepsRecord(env, s.hw, s.owner, a.spec, a.size, k, ci, hw', made, s.op.claim.uid, u, claims[u].results, d);
    }
  }

  lemma WriteStartedKeepsRecords(env: Env, s: Node)
    requires RecordsInv(env, s) && PrepareEnabled(env, s, WriteStarted)
    ensures RecordsInv(env, PrepareApply(env, s, WriteStarted))
  {
    WritesPrepare(env, s, WriteStarted);
    PrepareHardware(env, s, WriteStarted);
  }

  lemma WriteCompletedKeepsRecords(env: Env, s: Node)
    requires MigInv(env, s) && PrepareEnabled(env, s, WriteCompleted)
    ensures RecordsInv(env, PrepareApply(env, s, WriteCompleted))
  {
    WritesPrepare(env, s, WriteCompleted);
    PrepareHardware(env, s, WriteCompleted);
  }

  lemma QuietTouches(env: Env, s: Node, q: PrepareEvent)
    requires PrepareEnabled(env, s, q) && !q.WriteCompleted?
    ensures s.up && PrepareApply(env, s, q).touched == s.touched
  {
    match q
    case CreateMig(_, _, _, _) =>
    case PlaceHook(_, _, _) =>
    case _ =>
  }

  lemma PrepareKeepsRecords(env: Env, s: Node, q: PrepareEvent)
    requires EnvOk(env) && Basic(env, s) && MigInv(env, s) && PrepareEnabled(env, s, q) && Holds(env, s, Prepare(q), FreshIds)
    ensures RecordsInv(env, PrepareApply(env, s, q))
  {
    match q
    case CreateMig(k, ci, hw, made) =>
      CreateIsForAResult(env, s, k, ci, hw, made);
      CreationKeepsBooks(env, s, k, ci, hw, made);
    case WriteStarted => WriteStartedKeepsRecords(env, s);
    case WriteCompleted => WriteCompletedKeepsRecords(env, s);
    case _ =>
      WritesPrepare(env, s, q);
      PrepareHardware(env, s, q);
      QuietTouches(env, s, q);
      RecordsFrame(env, s, PrepareApply(env, s, q));
  }

  lemma RecordsKept(env: Env, s: Node, e: Event)
    requires EnvOk(env) && Basic(env, s) && MigInv(env, s) && Enabled(env, s, e)
    requires Holds(env, s, e, FreshIds) && Holds(env, s, e, Adopted(MigRecords))
    ensures RecordsInv(env, Apply(env, s, e))
  {
    match e
    case Outside(o) => OutsideKeepsRecords(env, s, o);
    case Process(p) => ProcessKeepsRecords(env, s, p);
    case Cleanup(c) => CleanupKeepsRecords(env, s, c);
    case Prepare(q) => PrepareKeepsRecords(env, s, q);
    case Unprepare(u) => UnprepareKeepsRecords(env, s, u);
    case Delete(j) => JobKeepsRecords(env, s, j);
  }

  /** What the safety of recorded devices rests on. */
  const Safe: set<Hypothesis> := {Advertised, FreshIds, Adopted(MigResults), Adopted(MigRecords)}

  lemma {:induction false} MigRun(env: Env, s: Node, es: seq<Event>, hs: set<Hypothesis>)
    requires EnvOk(env) && Basic(env, s) && MigInv(env, s) && Run(env, s, es).Some?
    requires Safe <= hs && Assuming(env, s, es, hs)
    ensures MigInv(env, Run(env, s, es).value)
    decreases es
  {
    if es != [] {
      BasicKept(env, s, es[0]);
      assert Advertised in Safe && FreshIds in Safe && Adopted(MigResults) in Safe && Adopted(MigRecords) in Safe;
      MakingKept(env, s, es[0]);
      RecordsKept(env, s, es[0]);
      MigRun(env, Apply(env, s, es[0]), es[1..], hs);
    }
  }

  // ------------------------------------------------------------ main results

  /** In every reachable state a completed claim whose own Unprepare has not begun has every MIG device it recorded: the
      GPU instance and its compute instance exist, are the ones created for that claim, and carry the recorded name. */
  lemma CompletedDevicesLive(env: Env, s: Node, es: seq<Event>, u: Uid, d: PreparedDevice)
    requires EnvOk(env) && Initial(s) && Run(env, s, es).Some? && Assuming(env, s, es, Safe)
    requires var t := Run(env, s, es).value; t.up && Completed(t, u) && u !in t.touched && d in ClaimsOf(t)[u].devices && d.live.Some?
    ensures var t := Run(env, s, es).value;
            var k := d.live.value.Key();
            Alive(t.hw, d.live.value) && k in t.owner && t.owner[k] == u && NameOf(env.profiles, t.hw, k) == d.device
  {
    InitialBasic(env, s);
    MigRun(env, s, es, Safe);
    var t := Run(env, s, es).value;
    assert RecordOk(env, t.hw, t.owner, u, ClaimsOf(t)[u].results, d);
  }

  predicate OwnDeletion(s: Node, e: Event, u: Uid) {
    e.Delete? && e.j.DeleteMig? && s.op.Unpreparing? && s.op.uid == u
  }

  predicate IsReboot(e: Event) {
    e.Outside? && e.o.Reboot?
  }

  lemma DeletionSpares(env: Env, s: Node, j: JobEvent, u: Uid, d: PreparedDevice)
    requires Basic(env, s) && MigInv(env, s) && JobEnabled(env, s, j)
    requires Completed(s, u) && d in ClaimsOf(s)[u].devices && d.live.Some? && Alive(s.hw, d.live.value)
    ensures Alive(JobApply(env, s, j).hw, d.live.value) || OwnDeletion(s, Delete(j), u)
  {
    JobEffect(env, s, j);
    if j.DeleteMig? {
      DeletionKeepsRecord(env, s.hw, s.owner, j.tuple, j.hw, j.done, u, ClaimsOf(s)[u].results, d);
      if d.live.value.Key() == j.tuple.Key() {
        TargetIsFair(env, s, j.tuple, u, d);
      }
    }
  }

  lemma CreationSpares(env: Env, s: Node, q: PrepareEvent, l: LiveTuple)
    requires PrepareEnabled(env, s, q) && Alive(s.hw, l)
    ensures Alive(PrepareApply(env, s, q).hw, l)
  {
    if q.CreateMig? {
      assert MayCreate(env, s, q.k, q.ci, q.hw, q.made);
    } else {
      PrepareHardware(env, s, q);
    }
  }

  lemma StepSpares(env: Env, s: Node, e: Event, u: Uid, d: PreparedDevice)
    requires Basic(env, s) && MigInv(env, s) && Enabled(env, s, e)
    requires Completed(s, u) && d in ClaimsOf(s)[u].devices && d.live.Some? && Alive(s.hw, d.live.value)
    ensures Alive(Apply(env, s, e).hw, d.live.value) || OwnDeletion(s, e, u) || IsReboot(e)
  {
    match e
    case Outside(o) => OutsideHardware(s, o);
    case Process(p) => ProcessHardware(env, s, p);
    case Cleanup(c) => CleanupHardware(s, c);
    case Prepare(q) => CreationSpares(env, s, q, d.live.value);
    case Unprepare(v) => UnprepareHardware(env, s, v);
    case Delete(j) => DeletionSpares(env, s, j, u, d);
  }

  /** After any run, the next event destroys a live MIG device recorded by a completed claim only if it is a deletion
      within that claim's own Unprepare, or a reboot. */
  lemma DestroyedOnlyByOwnUnprepare(env: Env, s: Node, es: seq<Event>, e: Event, u: Uid, d: PreparedDevice)
    requires EnvOk(env) && Initial(s) && Run(env, s, es).Some? && Assuming(env, s, es, Safe)
    requires var t := Run(env, s, es).value;
             && t.up && Completed(t, u) && d in ClaimsOf(t)[u].devices && d.live.Some? && Alive(t.hw, d.live.value) && Enabled(env, t, e)
    ensures var t := Run(env, s, es).value;
            Alive(Apply(env, t, e).hw, d.live.value) || OwnDeletion(t, e, u) || IsReboot(e)
  {
    InitialBasic(env, s);
    BasicRun(env, s, es);
    MigRun(env, s, es, Safe);
    StepSpares(env, Run(env, s, es).value, e, u, d);
  }

  // ---------------------------------------------------- when an answer is stale

  /** A step of u's own Unprepare that takes the device l, or at least its compute instance. */
  predicate Destroys(s: Node, e: Event, u: Uid, l: LiveTuple) {
    OwnDeletion(s, e, u) && e.j.tuple.Key() == l.Key() && e.j.hw.gis != s.hw.gis
  }

  ghost predicate EverDestroys(env: Env, s: Node, es: seq<Event>, u: Uid, l: LiveTuple)
    decreases es
  {
    es != [] && Enabled(env, s, es[0]) && (Destroys(s, es[0], u, l) || EverDestroys(env, Apply(env, s, es[0]), es[1..], u, l))
  }

  /** What a deletion leaves of a device that is there. */
  lemma DeletionDecides(h: Hw, t: LiveTuple, h': Hw, done: bool, l: LiveTuple)
    requires Deletes(h, t, h', done)
    ensures Alive(h', l) ==> Alive(h, l)
    ensures t.Key() == l.Key() && h'.gis != h.gis ==> !Alive(h', l)
    ensures (t.Key() != l.Key() || h'.gis == h.gis) && Alive(h, l) ==> Alive(h', l)
  {
  }

  lemma JobDecides(env: Env, s: Node, j: JobEvent, u: Uid, d: PreparedDevice)
    requires Basic(env, s) && MigInv(env, s) && JobEnabled(env, s, j)
    requires Completed(s, u) && d in ClaimsOf(s)[u].devices && d.live.Some?
    ensures Alive(JobApply(env, s, j).hw, d.live.value) <==> Alive(s.hw, d.live.value) && !Destroys(s, Delete(j), u, d.live.value)
  {
    JobEffect(env, s, j);
    if j.DeleteMig? {
      DeletionDecides(s.hw, j.tuple, j.hw, j.done, d.live.value);
      if Alive(s.hw, d.live.value) {
        DeletionSpares(env, s, j, u, d);
      }
    }
  }

  /** No creation brings the device back: its id stays taken by the record. */
  lemma CreationDecides(env: Env, s: Node, q: PrepareEvent, u: Uid, d: PreparedDevice)
    requires PrepareEnabled(env, s, q) && Holds(env, s, Prepare(q), FreshIds)
    requires Completed(s, u) && d in ClaimsOf(s)[u].devices && d.live.Some?
    ensures Alive(PrepareApply(env, s, q).hw, d.live.value) <==> Alive(s.hw, d.live.value)
  {
    if q.CreateMig? {
      assert MayCreate(env, s, q.k, q.ci, q.hw, q.made);
      assert d.live.value.Key() != q.k;
    } else {
      PrepareHardware(env, s, q);
    }
  }

  lemma StepDecides(env: Env, s: Node, e: Event, u: Uid, d: PreparedDevice)
    requires Basic(env, s) && MigInv(env, s) && Enabled(env, s, e) && Holds(env, s, e, FreshIds) && !IsReboot(e)
    requires Completed(s, u) && d in ClaimsOf(s)[u].devices && d.live.Some?
    ensures Alive(Apply(env, s, e).hw, d.live.value) <==> Alive(s.hw, d.live.value) && !Destroys(s, e, u, d.live.value)
  {
    match e
    case Outside(o) => OutsideHardware(s, o);
    case Process(p) => ProcessHardware(env, s, p);
    case Cleanup(c) => CleanupHardware(s, c);
    case Prepare(q) => CreationDecides(env, s, q, u, d);
    case Unprepare(v) => UnprepareHardware(env, s, v);
    case Delete(j) => JobDecides(env, s, j, u, d);
  }

  /** While a completed claim keeps its entry, a device that it recorded lives on exactly if no step of the claim's own
      Unprepare has taken it. */
  lemma {:induction false} RecordedAliveIff(env: Env, s: Node, es: seq<Event>, u: Uid, d: PreparedDevice)
    requires EnvOk(env) && Basic(env, s) && MigInv(env, s) && Run(env, s, es).Some? && Assuming(env, s, es, Safe + {SameBoot})
    requires Completed(s, u) && d in ClaimsOf(s)[u].devices && d.live.Some? && NeverRemoved(env, s, es, u)
    ensures Alive(Run(env, s, es).value.hw, d.live.value) <==> Alive(s.hw, d.live.value) && !EverDestroys(env, s, es, u, d.live.value)
    decreases es
  {
    if es != [] {
      var hs := Safe + {SameBoot};
      assert Advertised in hs && FreshIds in hs && Adopted(MigResults) in hs && Adopted(MigRecords) in hs && SameBoot in hs;
      BasicKept(env, s, es[0]);
      MakingKept(env, s, es[0]);
      RecordsKept(env, s, es[0]);
      CompletedUnchanged(env, s, es[0], u);
      StepDecides(env, s, es[0], u, d);
      RecordedAliveIff(env, Apply(env, s, es[0]), es[1..], u, d);
    }
  }

  /** A Prepare that has just completed answers with devices that are there. */
  lemma FreshAnswerIsLive(env: Env, s: Node, d: PreparedDevice)
    requires EnvOk(env) && Basic(env, s) && MigInv(env, s) && PrepareEnabled(env, s, WriteCompleted)
    requires d in s.op.stage.done && d.live.Some?
    ensures var t, u := PrepareApply(env, s, WriteCompleted), s.op.claim.uid;
            Completed(t, u) && ClaimsOf(t)[u].devices == s.op.stage.done && Alive(t.hw, d.live.value)
    ensures Basic(env, PrepareApply(env, s, WriteCompleted)) && MigInv(env, PrepareApply(env, s, WriteCompleted))
  {
    var e := Prepare(WriteCompleted);
    assert Holds(env, s, e, FreshIds) && Holds(env, s, e, Adopted(MigRecords)) && Holds(env, s, e, Advertised) && Holds(env, s, e, Adopted(MigResults));
    BasicKept(env, s, e);
    MakingKept(env, s, e);
    RecordsKept(env, s, e);
    WritesPrepare(env, s, WriteCompleted);
    PrepareHardware(env, s, WriteCompleted);
  }

  lemma AnsweredAliveIff(env: Env, s: Node, later: seq<Event>, d: PreparedDevice)
    requires EnvOk(env) && Basic(env, s) && MigInv(env, s) && PrepareEnabled(env, s, WriteCompleted) && d in s.op.stage.done && d.live.Some?
    requires var t := PrepareApply(env, s, WriteCompleted);
             Run(env, t, later).Some? && Assuming(env, t, later, Safe + {SameBoot}) && NeverRemoved(env, t, later, s.op.claim.uid)
    ensures var t := PrepareApply(env, s, WriteCompleted);
            !Alive(Run(env, t, later).value.hw, d.live.value) <==> EverDestroys(env, t, later, s.op.claim.uid, d.live.value)
  {
    FreshAnswerIsLive(env, s, d);
    RecordedAliveIff(env, PrepareApply(env, s, WriteCompleted), later, s.op.claim.uid, d);
  }

  /** When an answer is stale. After any run in which a Prepare of u has completed, and any further run within the boot
      that does not remove u's entry, a device that was handed out, and that every further Prepare of u hands out again, is
      gone exactly if u's own Unprepare has since taken it, or at least its compute instance. */
  lemma StaleAnswerIff(env: Env, s: Node, es: seq<Event>, later: seq<Event>, e: Event, d: PreparedDevice)
    requires EnvOk(env) && Initial(s) && Run(env, s, es).Some? && Assuming(env, s, es, Safe)
    requires var t := Run(env, s, es).value;
             && PrepareEnabled(env, t, WriteCompleted) && d in t.op.stage.done && d.live.Some?
             && var t1 := Apply(env, t, Prepare(WriteCompleted));
             && Run(env, t1, later).Some? && Assuming(env, t1, later, Safe + {SameBoot}) && NeverRemoved(env, t1, later, t.op.claim.uid)
             && Enabled(env, Run(env, t1, later).value, e)
    ensures var t := Run(env, s, es).value;
            var t1, u := Apply(env, t, Prepare(WriteCompleted)), t.op.claim.uid;
            var t2 := Run(env, t1, later).value;
            && (Answer(t2, e, u).Some? ==> d in Answer(t2, e, u).value)
            && (!Alive(t2.hw, d.live.value) <==> EverDestroys(env, t1, later, u, d.live.value))
  {
    InitialBasic(env, s);
    BasicRun(env, s, es);
    MigRun(env, s, es, Safe);
    var t := Run(env, s, es).value;
    AnsweredAliveIff(env, t, later, d);
    PrepareIdempotent(env, s, es, Prepare(WriteCompleted), later, e, t.op.claim.uid);
  }

  // ------------------------------------------------------ what is announced

  /** An announced device under the name its kind is given, with a MIG profile that leaves something to print. */
  ghost predicate Announced(env: Env, d: string, a: Allocatable) {
    match a.deviceType
    case HamiGpuDevice => env.mode == HamiMode && exists n: nat :: d == "hami-gpu-" + Dec(n)
    case GpuDevice => env.mode != HamiMode && exists n: nat :: d == "gpu-" + Dec(n)
    case VfioDevice => env.mode != HamiMode && exists n: nat :: d == "gpu-vfio-" + Dec(n)
    case MigStaticDevice =>
      && env.mode == NeitherMode && a.spec.minor in env.gpus && FitsInt(a.spec) && d == CanonicalName(env.profiles, a.spec)
    case MigDynamicDevice =>
      && env.mode == DynamicMig && a.size > 0 && a.spec.minor in env.gpus && FitsInt(a.spec) && d == CanonicalName(env.profiles, a.spec)
      && ProfileLabel(env.profiles(a.spec.minor, a.spec.profileId)) != ""
  }

  /** What the proofs assume of the announced devices follows from how they are named. */
  lemma AnnouncedNamesSuffice(env: Env)
    requires forall d :: d in env.allocatable ==> Announced(env, d, env.allocatable[d])
    ensures EnvOk(env)
  {
    forall d | d in env.allocatable
      ensures env.mode == HamiMode <==> env.allocatable[d].deviceType == HamiGpuDevice
      ensures env.allocatable[d].deviceType == MigDynamicDevice ==>
                && env.mode == DynamicMig && env.allocatable[d].size > 0
                && ParseCanonicalName(d) == Some(env.allocatable[d].spec) && d == CanonicalName(env.profiles, env.allocatable[d].spec)
      ensures env.mode == DynamicMig && env.allocatable[d].deviceType != MigDynamicDevice ==> ParseCanonicalName(d) == None
      ensures ParseCanonicalName(d).Some? ==> ParseCanonicalName(d).value.minor in env.gpus
    {
      var a := env.allocatable[d];
      match a.deviceType
      case MigDynamicDevice => RoundTrip(a.spec, env.profiles(a.spec.minor, a.spec.profileId));
      case GpuDevice =>
        var n: nat :| d == "gpu-" + Dec(n);
        OtherNamesDoNotParse(n);
      case VfioDevice =>
        var n: nat :| d == "gpu-vfio-" + Dec(n);
        OtherNamesDoNotParse(n);
      case MigStaticDevice => RoundTrip(a.spec, env.profiles(a.spec.minor, a.spec.profileId));
      case HamiGpuDevice =>
        var n: nat :| d == "hami-gpu-" + Dec(n);
        OtherNamesDoNotParse(n);
    }
  }

  // ------------------------------------------------- without the hypotheses

  /** FreshIds is the exact condition: a creation keeps every record about its own GPU instance precisely when no record
      names the new instance's id. */
  lemma RecordsKeptIffIdFree(env: Env, s: Node, k: GiKey, ci: nat, hw': Hw)
    requires Basic(env, s) && MigInv(env, s) && PrepareEnabled(env, s, CreateMig(k, ci, hw', true))
    ensures RecordsOk(env, ClaimsOf(s), hw', OwnerAfter(s, k, hw')) <==> IdFree(ClaimsOf(s), k)
  {
    CreateIsForAResult(env, s, k, ci, hw', true);
    var claims, owner, t := ClaimsOf(s), OwnerAfter(s, k, hw'), AfterCreate(env, s, k, ci, hw', true);
    assert claims[s.op.claim.uid].devices == [] && ClaimsOf(t) == claims;
    if IdFree(claims, k) {
      CreationKeepsBooks(env, s, k, ci, hw', true);
    } else {
      var u, d :| u in claims && d in claims[u].devices && d.live.Some? && d.live.value.Key() == k;
      assert k in hw'.gis && owner[k] == s.op.claim.uid && u != s.op.claim.uid;
      assert !RecordOk(env, hw', owner, u, claims[u].results, d);
    }
  }
}
