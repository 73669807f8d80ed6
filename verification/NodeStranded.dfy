/** A claim that names a MIG device of a GPU that is not on the node. Prepare writes its entry before it looks the device up,
    and from then on neither rollback nor unprepare gets past the name: there is no handle for the GPU. */
module NodeStranded {
  import opened Base
  import opened Claims
  import opened Hypotheses
  import opened MigNames
  import opened Node
  import opened NodeAccount
  import opened NodeBasics
  import opened NodeGaps
  import opened NodeLife
  import opened NodeMaking
  import opened NodeMig
  import opened NodePlacing
  import opened NodeRecovery
  import opened NodeRuns
  import opened NodeSweep
  import opened Nvlib

  /** The name of a MIG device of a GPU that is not on the node. */
  predicate NoGpu(env: Env, name: string) {
    ParseCanonicalName(name).Some? && ParseCanonicalName(name).value.minor !in env.gpus
  }

  /** An operation for u has the name still to do; one for another claim comes to its devices only if all are announced, and
      shares no MIG device. */
  predicate OpStranded(env: Env, op: Op, u: Uid, name: string) {
    match op
    case Preparing(c, stage) =>
      && UnsharedResults(c.results)
      && (c.uid == u ==> stage == Enter || (stage.Rollback? && ByName(name) in stage.todo))
      && (stage.Create? ==> AllAllocatable(env, c.results))
    case Unpreparing(v, _, stage) => v == u ==> stage == Arrive || (stage.Sweep? && ByName(name) in stage.todo)
    case _ => true
  }

  /** The entry of u lists the name, and no completed claim does. */
  predicate EntryStranded(env: Env, claims: map<Uid, Entry>, u: Uid, name: string) {
    && u in claims && claims[u].state == PrepareStarted && name in DeviceNames(claims[u].results)
    && NoGpu(env, name) && name !in CompletedNames(claims)
  }

  predicate Stranded(env: Env, s: Node, u: Uid, name: string) {
    s.up && EntryStranded(env, ClaimsOf(s), u, name) && OpStranded(env, s.op, u, name)
  }

  // --------------------------------------------------------- it stays so

  /** A claim that gets to its devices does not use the name. */
  lemma AnnouncedElsewhere(env: Env, results: seq<AllocResult>, name: string)
    requires EnvOk(env) && NoGpu(env, name) && UnsharedResults(results) && AllAllocatable(env, results)
    ensures name !in DeviceNames(results)
  {
    assert name !in env.allocatable;
  }

  lemma EntryAfterStart(env: Env, claims: map<Uid, Entry>, c: Claim, u: Uid, name: string)
    requires EntryStranded(env, claims, u, name) && c.uid != u && (c.uid in claims ==> claims[c.uid].state != PrepareCompleted)
    ensures EntryStranded(env, claims[c.uid := StartedEntry(c)], u, name)
  {
    NamesAfterStart(claims, c);
  }

  lemma EntryAfterCompletion(env: Env, claims: map<Uid, Entry>, c: Claim, done: seq<PreparedDevice>, u: Uid, name: string)
    requires EntryStranded(env, claims, u, name) && c.uid != u && name !in DeviceNames(c.results)
    ensures EntryStranded(env, claims[c.uid := CompletedEntry(c, done)], u, name)
  {
    NamesAfterCompletion(claims, c, done);
  }

  lemma EntryAfterForgetting(env: Env, claims: map<Uid, Entry>, v: Uid, u: Uid, name: string)
    requires EntryStranded(env, claims, u, name) && v != u
    ensures EntryStranded(env, claims - {v}, u, name)
  {
    assert CompletedNames(claims - {v}) <= CompletedNames(claims);
  }

  /** A list with the name in it is not worked off. */
  lemma NameStays(env: Env, s: Node, j: JobEvent, name: string)
    requires Deleting(s.op) && JobEnabled(env, s, j) && ByName(name) in Todo(s.op) && NoGpu(env, name) && name !in Spare(s.op)
    ensures JobApply(env, s, j).op == Idle || (JobApply(env, s, j).op == NextJob(s.op) && ByName(name) in Todo(NextJob(s.op)))
  {
    JobNotBlocked(env, s, j);
    WithTodoFacts(s.op, Todo(s.op));
    WithTodoFacts(s.op, Todo(s.op)[1..]);
    assert Todo(s.op) == [Todo(s.op)[0]] + Todo(s.op)[1..];
  }

  lemma JobKeepsStranded(env: Env, s: Node, j: JobEvent, u: Uid, name: string)
    requires Basic(env, s) && Stranded(env, s, u, name) && JobEnabled(env, s, j)
    ensures Stranded(env, JobApply(env, s, j), u, name)
  {
    JobSameFile(env, s, j);
    JobEffect(env, s, j);
    var t := JobApply(env, s, j);
    assert ClaimsOf(t) == ClaimsOf(s);
    NoJobsOnArrival(env, s, j);
    if !s.op.TearingDown? {
      NextJobSweptClaim(s.op);
      JobNotBlocked(env, s, j);
      if SweptClaim(s.op) == u {
        SweepFacts(env, s);
        NameStays(env, s, j, name);
      }
      OpAfterJob(env, s.op, t.op, u, name);
    }
  }

  lemma OpAfterJob(env: Env, op: Op, op': Op, u: Uid, name: string)
    requires Deleting(op) && Todo(op) != [] && OpStranded(env, op, u, name) && op' in {Idle, NextJob(op)}
    requires (op.Preparing? || op.Unpreparing?) && (SweptClaim(op) == u && op' != Idle ==> ByName(name) in Todo(op'))
    ensures OpStranded(env, op', u, name)
  {
    WithTodoFacts(op, Todo(op));
    WithTodoFacts(op, Todo(op)[1..]);
    match op
    case Preparing(_, _) =>
    case Unpreparing(_, _, _) =>
  }

  /** The list made from the entry has the name in it. */
  lemma NameIsListed(env: Env, claims: map<Uid, Entry>, u: Uid, name: string)
    requires EntryStranded(env, claims, u, name)
    ensures ByName(name) in NameJobs(claims[u].results)
  {
    var r :| r in claims[u].results && r.device == name;
    assert ByName(r.device) in NameJobs(claims[u].results);
  }

  lemma OpAfterAdmission(env: Env, s: Node, u: Uid, name: string)
    requires env.mode != HamiMode && EntryStranded(env, ClaimsOf(s), u, name) && s.op.Preparing? && OpStranded(env, s.op, u, name)
    ensures OpStranded(env, AdmittedPrepare(env, s), u, name)
  {
    NameIsListed(env, ClaimsOf(s), u, name);
  }

  lemma AdmitKeepsStranded(env: Env, s: Node, u: Uid, name: string)
    requires env.mode != HamiMode && Stranded(env, s, u, name) && PrepareEnabled(env, s, AdmitPrepare)
    ensures Stranded(env, PrepareApply(env, s, AdmitPrepare), u, name)
  {
    OpAfterAdmission(env, s, u, name);
    var t := PrepareApply(env, s, AdmitPrepare);
    assert ClaimsOf(t) == ClaimsOf(s) && t.op == AdmittedPrepare(env, s);
  }

  lemma WriteKeepsStranded(env: Env, s: Node, q: PrepareEvent, u: Uid, name: string)
    requires EnvOk(env) && Basic(env, s) && Stranded(env, s, u, name) && PrepareEnabled(env, s, q) && (q.WriteStarted? || q.WriteCompleted?)
    ensures Stranded(env, PrepareApply(env, s, q), u, name)
  {
    HolderFacts(env, s, q);
    WritesPrepare(env, s, q);
    var c := s.op.claim;
    assert c.uid != u;
    if q.WriteStarted? {
      EntryAfterStart(env, ClaimsOf(s), c, u, name);
    } else {
      AnnouncedElsewhere(env, c.results, name);
      EntryAfterCompletion(env, ClaimsOf(s), c, s.op.stage.done, u, name);
    }
  }

  lemma CreateKeepsStranded(env: Env, s: Node, k: GiKey, ci: nat, hw: Hw, made: bool, u: Uid, name: string)
    requires Stranded(env, s, u, name) && MayCreate(env, s, k, ci, hw, made)
    ensures Stranded(env, AfterCreate(env, s, k, ci, hw, made), u, name)
  {
    assert ClaimsOf(AfterCreate(env, s, k, ci, hw, made)) == ClaimsOf(s);
  }

  lemma QuietKeepsStranded(env: Env, s: Node, q: PrepareEvent, u: Uid, name: string)
    requires Stranded(env, s, u, name) && PrepareEnabled(env, s, q)
    requires q.ReturnPrepared? || q.EndRollback? || q.PlaceHook? || q.EndHook? || q.Take?
    ensures Stranded(env, PrepareApply(env, s, q), u, name)
  {
    WritesPrepare(env, s, q);
    match q
    case Take =>
    case PlaceHook(_, _, _) =>
    case _ =>
  }

  lemma PrepareKeepsStranded(env: Env, s: Node, q: PrepareEvent, u: Uid, name: string)
    requires EnvOk(env) && env.mode != HamiMode && Basic(env, s) && Stranded(env, s, u, name) && PrepareEnabled(env, s, q)
    ensures Stranded(env, PrepareApply(env, s, q), u, name)
  {
    match q
    case AdmitPrepare => AdmitKeepsStranded(env, s, u, name);
    case WriteStarted => WriteKeepsStranded(env, s, q, u, name);
    case WriteCompleted => WriteKeepsStranded(env, s, q, u, name);
    case CreateMig(k, ci, hw, made) =>
      CreateIsForAResult(env, s, k, ci, hw, made);
      CreateKeepsStranded(env, s, k, ci, hw, made, u, name);
    case _ => QuietKeepsStranded(env, s, q, u, name);
  }

  lemma UnprepareKeepsStranded(env: Env, s: Node, v: UnprepareEvent, u: Uid, name: string)
    requires env.mode != HamiMode && Stranded(env, s, u, name) && UnprepareEnabled(s, v)
    ensures Stranded(env, UnprepareApply(env, s, v), u, name)
  {
    WritesUnprepare(env, s, v);
    match v
    case WriteForget => EntryAfterForgetting(env, ClaimsOf(s), s.op.uid, u, name);
    case AdmitUnprepare => NameIsListed(env, ClaimsOf(s), u, name);
    case _ =>
  }

  lemma ProcessKeepsStranded(env: Env, s: Node, p: ProcessEvent, u: Uid, name: string)
    requires Basic(env, s) && Stranded(env, s, u, name) && ProcessEnabled(env, s, p) && Holds(env, s, Process(p), NoMigSharing)
    ensures Stranded(env, ProcessApply(env, s, p), u, name)
  {
    WritesProcess(env, s, p);
  }

  lemma OutsideKeepsStranded(env: Env, s: Node, o: OutsideEvent, u: Uid, name: string)
    requires Stranded(env, s, u, name) && OutsideEnabled(s, o) && !o.Reboot?
    ensures Stranded(env, OutsideApply(s, o), u, name)
  {
    OutsideSameFile(s, o);
    OutsideHardware(s, o);
    assert ClaimsOf(OutsideApply(s, o)) == ClaimsOf(s);
  }

  lemma CleanupKeepsStranded(env: Env, s: Node, c: CleanupEvent, u: Uid, name: string)
    requires Stranded(env, s, u, name) && CleanupEnabled(s, c)
    ensures Stranded(env, CleanupApply(s, c), u, name)
  {
    CleanupSameFile(s, c);
    CleanupHardware(s, c);
    assert ClaimsOf(CleanupApply(s, c)) == ClaimsOf(s);
  }

  lemma StrandedKept(env: Env, s: Node, e: Event, u: Uid, name: string)
    requires EnvOk(env) && env.mode != HamiMode && Basic(env, s) && Stranded(env, s, u, name) && Enabled(env, s, e)
    requires Holds(env, s, e, NoMigSharing) && Holds(env, s, e, SameBoot)
    ensures Stranded(env, Apply(env, s, e), u, name)
  {
    match e
    case Outside(o) => OutsideKeepsStranded(env, s, o, u, name);
    case Process(p) => ProcessKeepsStranded(env, s, p, u, name);
    case Cleanup(c) => CleanupKeepsStranded(env, s, c, u, name);
    case Prepare(q) => PrepareKeepsStranded(env, s, q, u, name);
    case Unprepare(v) => UnprepareKeepsStranded(env, s, v, u, name);
    case Delete(j) => JobKeepsStranded(env, s, j, u, name);
  }

  lemma {:induction false} StrandedRun(env: Env, s: Node, es: seq<Event>, u: Uid, name: string)
    requires EnvOk(env) && env.mode != HamiMode && Basic(env, s) && Stranded(env, s, u, name)
    requires Run(env, s, es).Some? && Assuming(env, s, es, {NoMigSharing, SameBoot})
    ensures Stranded(env, Run(env, s, es).value, u, name)
    decreases es
  {
    if es != [] {
      var hs := {NoMigSharing, SameBoot};
      assert NoMigSharing in hs && SameBoot in hs;
      BasicKept(env, s, es[0]);
      StrandedKept(env, s, es[0], u, name);
      StrandedRun(env, Apply(env, s, es[0]), es[1..], u, name);
    }
  }

  /** Within the boot nothing removes such an entry, and nothing completes it: no retry of Prepare, no Unprepare, no cleanup,
      no restart. A claim is in this state as soon as no operation is going on. */
  lemma StrandedForever(env: Env, s: Node, es: seq<Event>, later: seq<Event>, u: Uid, name: string)
    requires EnvOk(env) && env.mode != HamiMode && Initial(s) && Run(env, s, es).Some?
    requires var t := Run(env, s, es).value;
             && t.up && t.op == Idle && Started(t, u) && name in DeviceNames(ClaimsOf(t)[u].results) && NoGpu(env, name)
             && name !in CompletedNames(ClaimsOf(t))
             && Run(env, t, later).Some? && Assuming(env, t, later, {NoMigSharing, SameBoot})
    ensures Started(Run(env, Run(env, s, es).value, later).value, u)
  {
    InitialBasic(env, s);
    BasicRun(env, s, es);
    StrandedRun(env, Run(env, s, es).value, later, u, name);
  }

  // --------------------------------------------------- it can come to that

  lemma StrandedAtOnce(env: Env, t: Node, c: Claim, name: string)
    requires t.up && t.op == Idle && ClaimsOf(t) == map[c.uid := StartedEntry(c)] && name in DeviceNames(c.results) && NoGpu(env, name)
    ensures Stranded(env, t, c.uid, name)
  {
    OneClaim(ClaimsOf(t), c);
  }

  /** A run from a fresh node, under every hypothesis: a Prepare of any claim that names such a device leaves it stranded. */
  lemma AbsentGpuStrandsClaim(env: Env, s: Node, c: Claim, name: string) returns (t: Node)
    requires Fresh(env, s) && name in DeviceNames(c.results) && NoGpu(env, name)
    requires AdvertisedResults(env, c.results) && UnsharedResults(c.results)
    ensures Reachable(env, Sound + Safe, s, t) && t.up && t.op == Idle && Stranded(env, t, c.uid, name)
  {
    var hs := Sound + Safe;
    NotAsked(hs);
    FreshStart(env, hs, s);
    t := ReachFailed(env, hs, s, Settle(s), c);
    StrandedAtOnce(env, t, c, name);
  }

  /** A Prepare that writes its entry and fails. */
  lemma ReachFailed(env: Env, hs: set<Hypothesis>, s: Node, t: Node, c: Claim) returns (t': Node)
    requires Reachable(env, hs, s, t) && t.up && t.op == Idle && t.file.Some? && ClaimsOf(t) == map[] && Identity !in hs && OwnContainers !in hs
    requires AdvertisedResults(env, c.results) && UnsharedResults(c.results)
    ensures Reachable(env, hs, s, t') && t'.up && t'.op == Idle && ClaimsOf(t') == map[c.uid := StartedEntry(c)]
  {
    ReachStarted(env, hs, s, t, c);
    var started := AfterStarted(t, c);
    ReachStop(env, hs, s, started);
    t' := started.(op := Idle);
    assert ClaimsOf(t') == ClaimsOf(t)[c.uid := StartedEntry(c)];
  }
}
